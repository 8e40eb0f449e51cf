/** The JSON messages of the protocol. A JSON document is a tree; a signature is
    made over the tree of a message body (its canonical text being injective). */
module Messages {
  import opened Text
  import Base64

  /** The keys of every object in the protocol; `KeyText` gives their spelling. */
  datatype Key =
    | ApprovedKey | BodyKey | CheckinServiceSignatureKey | ClientIdKey
    | ClientIdNumKey | ClientSignatureKey | FirstNameKey | IdServiceSignatureKey
    | LastNameKey | MiddleNameKey | PinKey | PresentedIdKey
    | RequestingClientIdKey | SecretKey | SignatureKey | TicketKey
    | TimestampKey | VerifiedIdMessageKey | VoterIdDataKey | VoterUniqueIdKey

  function KeyText(k: Key): string {
    match k
    case ApprovedKey => "approved"
    case BodyKey => "body"
    case CheckinServiceSignatureKey => "checkin_service_signature"
    case ClientIdKey => "client_id"
    case ClientIdNumKey => "client_id_num"
    case ClientSignatureKey => "client_signature"
    case FirstNameKey => "first_name"
    case IdServiceSignatureKey => "id_service_signature"
    case LastNameKey => "last_name"
    case MiddleNameKey => "middle_name"
    case PinKey => "pin"
    case PresentedIdKey => "presented_id"
    case RequestingClientIdKey => "requesting_client_id"
    case SecretKey => "secret"
    case SignatureKey => "signature"
    case TicketKey => "ticket"
    case TimestampKey => "timestamp"
    case VerifiedIdMessageKey => "verified_id_message"
    case VoterIdDataKey => "voter_id_data"
    case VoterUniqueIdKey => "voter_unique_id"
  }

  /** Different keys are spelled differently: length and first character tell them apart. */
  lemma KeyTextInjective(a: Key, b: Key)
    requires KeyText(a) == KeyText(b)
    ensures a == b
  {
    var n := |KeyText(a)|;
    var c := KeyText(a)[0];
  }

  datatype Json =
    | Null
    | Bool(b: bool)
    | Num(n: int)
    | Str(s: string)
    | Obj(fields: map<Key, Json>)

  /** The document that goes over the wire: the same tree, with the keys as they are spelled. */
  datatype Document =
    | NullValue
    | BoolValue(b: bool)
    | NumValue(n: int)
    | StrValue(s: string)
    | Members(members: map<string, Document>)

  lemma KeysApart()
    ensures forall a, b :: KeyText(a) == KeyText(b) ==> a == b
  {
    forall a, b | KeyText(a) == KeyText(b) ensures a == b { KeyTextInjective(a, b); }
  }

  /** Each key replaced by its spelling. */
  function Named(fields: map<Key, Document>): (members: map<string, Document>)
    ensures forall k :: k in fields <==> KeyText(k) in members
    ensures forall k :: k in fields ==> members[KeyText(k)] == fields[k]
  {
    KeysApart();
    map k | k in fields :: KeyText(k) := fields[k]
  }

  function Spelled(j: Json): Document {
    match j
    case Null => NullValue
    case Bool(b) => BoolValue(b)
    case Num(n) => NumValue(n)
    case Str(s) => StrValue(s)
    case Obj(fields) => Members(Named(map k | k in fields :: Spelled(fields[k])))
  }

  lemma {:induction false} SpelledInjective(a: Json, b: Json)
    requires Spelled(a) == Spelled(b)
    ensures a == b
  {
    hide KeyText; hide Named;
    if a.Obj? {
      var x, y := map k | k in a.fields :: Spelled(a.fields[k]), map k | k in b.fields :: Spelled(b.fields[k]);
      assert Named(x) == Named(y);
      forall k ensures k in a.fields <==> k in b.fields {
        assert k in x <==> KeyText(k) in Named(x);
        assert k in y <==> KeyText(k) in Named(y);
      }
      forall k | k in a.fields ensures a.fields[k] == b.fields[k] {
        assert x[k] == Named(x)[KeyText(k)] == y[k];
        SpelledInjective(a.fields[k], b.fields[k]);
      }
    }
  }

  datatype Result<+T> = Ok(value: T) | Err {
    predicate IsFailure() { Err? }
    function PropagateFailure<U>(): Result<U> requires Err? { Err }
    function Extract(): T requires Ok? { value }
  }

  /** `json[key]` on a constant document: anything but a present key of an object is an error. */
  function At(j: Json, key: Key): Result<Json> {
    if j.Obj? && key in j.fields then Ok(j.fields[key]) else Err
  }

  /** Conversion to `std::uint32_t`: truncating, and defined on booleans. */
  function AsUint32(j: Json): Result<uint32> {
    match j
    case Num(n) => Ok(Narrow32(n))
    case Bool(b) => Ok(if b then 1 else 0)
    case _ => Err
  }

  /** Conversion to `std::uint64_t`: truncating, and not defined on booleans. */
  function AsUint64(j: Json): Result<uint64> {
    if j.Num? then Ok(Narrow64(j.n)) else Err
  }

  function AsString(j: Json): Result<string> { if j.Str? then Ok(j.s) else Err }

  function AsBool(j: Json): Result<bool> { if j.Bool? then Ok(j.b) else Err }

  function AsBytes(j: Json): Result<seq<byte>> {
    var s :- AsString(j);
    match Base64.Decode(s) case None => Err case Some(bs) => Ok(bs)
  }

  function BytesToJson(bs: seq<byte>): Json { Str(Base64.Encode(bs)) }

  // ---------------------------------------------------------------------- messages

  datatype VoterIdBody = VoterIdBody(clientId: uint32, timestamp: uint64, lastName: string, middleName: string,
                                     firstName: string, idData: seq<byte>)
  datatype VoterIdRequest = VoterIdRequest(body: VoterIdBody, signature: seq<byte>)
  datatype VerifiedVoterId = VerifiedVoterId(presented: VoterIdRequest, voterId: uint32, signature: seq<byte>)
  datatype CheckinBody = CheckinBody(clientId: uint32, timestamp: uint64, lastName: string, firstName: string,
                                     middleName: string, voterId: uint32, verified: VerifiedVoterId)
  datatype CheckinRequest = CheckinRequest(body: CheckinBody, signature: seq<byte>)
  datatype CheckinReplyBody = CheckinReplyBody(approved: bool, clientId: uint32, timestamp: uint64, lastName: string,
                                               firstName: string, middleName: string, voterId: uint32, ticket: string)
  datatype CheckinResponse = CheckinResponse(body: CheckinReplyBody, signature: seq<byte>)
  datatype TicketBody = TicketBody(clientId: uint32, timestamp: uint64, ticket: string, pin: uint32)
  datatype TicketRequest = TicketRequest(body: TicketBody, signature: seq<byte>)
  datatype TicketReplyBody = TicketReplyBody(approved: bool, lastName: string, firstName: string, middleName: string,
                                             voterId: uint32, secret: string, pin: uint32)
  datatype TicketResponse = TicketResponse(body: TicketReplyBody, signature: seq<byte>)

  // ------------------------------------------------------------------------ ToJson

  function VoterIdBodyJson(b: VoterIdBody): Json {
    Obj(map[ClientIdNumKey := Num(b.clientId), TimestampKey := Num(b.timestamp), LastNameKey := Str(b.lastName),
            MiddleNameKey := Str(b.middleName), FirstNameKey := Str(b.firstName),
            VoterIdDataKey := BytesToJson(b.idData)])
  }

  function VoterIdRequestJson(r: VoterIdRequest): Json {
    Obj(map[BodyKey := VoterIdBodyJson(r.body), ClientSignatureKey := BytesToJson(r.signature)])
  }

  /** What the ID service signs: the presented request together with the voter it matched. */
  function StatementJson(presented: VoterIdRequest, voterId: uint32): Json {
    Obj(map[PresentedIdKey := VoterIdRequestJson(presented), VoterUniqueIdKey := Num(voterId)])
  }

  function VerifiedVoterIdJson(v: VerifiedVoterId): Json {
    Obj(map[PresentedIdKey := VoterIdRequestJson(v.presented), VoterUniqueIdKey := Num(v.voterId),
            IdServiceSignatureKey := BytesToJson(v.signature)])
  }

  function CheckinBodyJson(b: CheckinBody): Json {
    Obj(map[ClientIdNumKey := Num(b.clientId), TimestampKey := Num(b.timestamp), LastNameKey := Str(b.lastName),
            FirstNameKey := Str(b.firstName), MiddleNameKey := Str(b.middleName),
            VoterUniqueIdKey := Num(b.voterId), VerifiedIdMessageKey := VerifiedVoterIdJson(b.verified)])
  }

  function CheckinRequestJson(r: CheckinRequest): Json {
    Obj(map[BodyKey := CheckinBodyJson(r.body), ClientSignatureKey := BytesToJson(r.signature)])
  }

  function CheckinReplyBodyJson(b: CheckinReplyBody): Json {
    Obj(map[ApprovedKey := Bool(b.approved), RequestingClientIdKey := Num(b.clientId),
            TimestampKey := Num(b.timestamp), LastNameKey := Str(b.lastName), FirstNameKey := Str(b.firstName),
            MiddleNameKey := Str(b.middleName), VoterUniqueIdKey := Num(b.voterId), TicketKey := Str(b.ticket)])
  }

  function CheckinResponseJson(r: CheckinResponse): Json {
    Obj(map[BodyKey := CheckinReplyBodyJson(r.body), CheckinServiceSignatureKey := BytesToJson(r.signature)])
  }

  function TicketBodyJson(b: TicketBody): Json {
    Obj(map[ClientIdKey := Num(b.clientId), TimestampKey := Num(b.timestamp), TicketKey := Str(b.ticket),
            PinKey := Num(b.pin)])
  }

  function TicketRequestJson(r: TicketRequest): Json {
    Obj(map[BodyKey := TicketBodyJson(r.body), SignatureKey := BytesToJson(r.signature)])
  }

  function TicketReplyBodyJson(b: TicketReplyBody): Json {
    Obj(map[ApprovedKey := Bool(b.approved), LastNameKey := Str(b.lastName), FirstNameKey := Str(b.firstName),
            MiddleNameKey := Str(b.middleName), VoterUniqueIdKey := Num(b.voterId), PinKey := Num(b.pin),
            SecretKey := Str(b.secret)])
  }

  function TicketResponseJson(r: TicketResponse): Json {
    Obj(map[BodyKey := TicketReplyBodyJson(r.body), SignatureKey := BytesToJson(r.signature)])
  }

  // ---------------------------------------------------------------------- FromJson

  function VoterIdBodyFromJson(j: Json): Result<VoterIdBody> {
    var idDataJson :- At(j, VoterIdDataKey);
    var idData :- AsBytes(idDataJson);
    var clientIdJson :- At(j, ClientIdNumKey);
    var clientId :- AsUint32(clientIdJson);
    var timestampJson :- At(j, TimestampKey);
    var timestamp :- AsUint64(timestampJson);
    var lastNameJson :- At(j, LastNameKey);
    var lastName :- AsString(lastNameJson);
    var middleNameJson :- At(j, MiddleNameKey);
    var middleName :- AsString(middleNameJson);
    var firstNameJson :- At(j, FirstNameKey);
    var firstName :- AsString(firstNameJson);
    Ok(VoterIdBody(clientId, timestamp, lastName, middleName, firstName, idData))
  }

  function VoterIdRequestFromJson(j: Json): Result<VoterIdRequest> {
    var bodyJson :- At(j, BodyKey);
    var body :- VoterIdBodyFromJson(bodyJson);
    var sigJson :- At(j, ClientSignatureKey);
    var signature :- AsBytes(sigJson);
    Ok(VoterIdRequest(body, signature))
  }

  function VerifiedVoterIdFromJson(j: Json): Result<VerifiedVoterId> {
    var presentedJson :- At(j, PresentedIdKey);
    var presented :- VoterIdRequestFromJson(presentedJson);
    var voterIdJson :- At(j, VoterUniqueIdKey);
    var voterId :- AsUint32(voterIdJson);
    var signatureJson :- At(j, IdServiceSignatureKey);
    var signature :- AsBytes(signatureJson);
    Ok(VerifiedVoterId(presented, voterId, signature))
  }

  /** The flat fields of a check-in body, around an already converted ID message. */
  function CheckinBodyAround(j: Json, id: Result<VerifiedVoterId>): Result<CheckinBody> {
    var clientIdJson :- At(j, ClientIdNumKey);
    var clientId :- AsUint32(clientIdJson);
    var timestampJson :- At(j, TimestampKey);
    var timestamp :- AsUint64(timestampJson);
    var lastNameJson :- At(j, LastNameKey);
    var lastName :- AsString(lastNameJson);
    var firstNameJson :- At(j, FirstNameKey);
    var firstName :- AsString(firstNameJson);
    var middleNameJson :- At(j, MiddleNameKey);
    var middleName :- AsString(middleNameJson);
    var voterIdJson :- At(j, VoterUniqueIdKey);
    var voterId :- AsUint32(voterIdJson);
    var verified :- id;
    Ok(CheckinBody(clientId, timestamp, lastName, firstName, middleName, voterId, verified))
  }

  function CheckinBodyFromJson(j: Json): Result<CheckinBody> {
    var verifiedJson :- At(j, VerifiedIdMessageKey);
    CheckinBodyAround(j, VerifiedVoterIdFromJson(verifiedJson))
  }

  function CheckinRequestFromJson(j: Json): Result<CheckinRequest> {
    var bodyJson :- At(j, BodyKey);
    var body :- CheckinBodyFromJson(bodyJson);
    var sigJson :- At(j, ClientSignatureKey);
    var signature :- AsBytes(sigJson);
    Ok(CheckinRequest(body, signature))
  }

  function CheckinReplyBodyFromJson(j: Json): Result<CheckinReplyBody> {
    var approvedJson :- At(j, ApprovedKey);
    var approved :- AsBool(approvedJson);
    var clientIdJson :- At(j, RequestingClientIdKey);
    var clientId :- AsUint32(clientIdJson);
    var timestampJson :- At(j, TimestampKey);
    var timestamp :- AsUint64(timestampJson);
    var lastNameJson :- At(j, LastNameKey);
    var lastName :- AsString(lastNameJson);
    var firstNameJson :- At(j, FirstNameKey);
    var firstName :- AsString(firstNameJson);
    var middleNameJson :- At(j, MiddleNameKey);
    var middleName :- AsString(middleNameJson);
    var voterIdJson :- At(j, VoterUniqueIdKey);
    var voterId :- AsUint32(voterIdJson);
    var ticketJson :- At(j, TicketKey);
    var ticket :- AsString(ticketJson);
    Ok(CheckinReplyBody(approved, clientId, timestamp, lastName, firstName, middleName, voterId, ticket))
  }

  function CheckinResponseFromJson(j: Json): Result<CheckinResponse> {
    var bodyJson :- At(j, BodyKey);
    var body :- CheckinReplyBodyFromJson(bodyJson);
    var sigJson :- At(j, CheckinServiceSignatureKey);
    var signature :- AsBytes(sigJson);
    Ok(CheckinResponse(body, signature))
  }

  function TicketBodyFromJson(j: Json): Result<TicketBody> {
    var clientIdJson :- At(j, ClientIdKey);
    var clientId :- AsUint32(clientIdJson);
    var timestampJson :- At(j, TimestampKey);
    var timestamp :- AsUint64(timestampJson);
    var ticketJson :- At(j, TicketKey);
    var ticket :- AsString(ticketJson);
    var pinJson :- At(j, PinKey);
    var pin :- AsUint32(pinJson);
    Ok(TicketBody(clientId, timestamp, ticket, pin))
  }

  function TicketRequestFromJson(j: Json): Result<TicketRequest> {
    var bodyJson :- At(j, BodyKey);
    var body :- TicketBodyFromJson(bodyJson);
    var sigJson :- At(j, SignatureKey);
    var signature :- AsBytes(sigJson);
    Ok(TicketRequest(body, signature))
  }

  function TicketReplyBodyFromJson(j: Json): Result<TicketReplyBody> {
    var approvedJson :- At(j, ApprovedKey);
    var approved :- AsBool(approvedJson);
    var lastNameJson :- At(j, LastNameKey);
    var lastName :- AsString(lastNameJson);
    var firstNameJson :- At(j, FirstNameKey);
    var firstName :- AsString(firstNameJson);
    var middleNameJson :- At(j, MiddleNameKey);
    var middleName :- AsString(middleNameJson);
    var voterIdJson :- At(j, VoterUniqueIdKey);
    var voterId :- AsUint32(voterIdJson);
    var secretJson :- At(j, SecretKey);
    var secret :- AsString(secretJson);
    var pinJson :- At(j, PinKey);
    var pin :- AsUint32(pinJson);
    Ok(TicketReplyBody(approved, lastName, firstName, middleName, voterId, secret, pin))
  }

  function TicketResponseFromJson(j: Json): Result<TicketResponse> {
    var bodyJson :- At(j, BodyKey);
    var body :- TicketReplyBodyFromJson(bodyJson);
    var sigJson :- At(j, SignatureKey);
    var signature :- AsBytes(sigJson);
    Ok(TicketResponse(body, signature))
  }

  // ------------------------------------------------------------------- round trips

  lemma BytesRoundTrip(bs: seq<byte>)
    ensures AsBytes(BytesToJson(bs)) == Ok(bs)
  {
    Base64.RoundTrip(bs);
  }

  lemma VoterIdBodyRoundTrip(b: VoterIdBody)
    ensures VoterIdBodyFromJson(VoterIdBodyJson(b)) == Ok(b)
  {
    BytesRoundTrip(b.idData);
  }

  lemma VoterIdRequestRoundTrip(r: VoterIdRequest)
    ensures VoterIdRequestFromJson(VoterIdRequestJson(r)) == Ok(r)
  {
    VoterIdBodyRoundTrip(r.body);
    BytesRoundTrip(r.signature);
  }

  lemma VerifiedVoterIdParts(presented: Json, voter: Json, signature: Json, v: VerifiedVoterId)
    requires VoterIdRequestFromJson(presented) == Ok(v.presented)
    requires AsUint32(voter) == Ok(v.voterId) && AsBytes(signature) == Ok(v.signature)
    ensures VerifiedVoterIdFromJson(
              Obj(map[PresentedIdKey := presented, VoterUniqueIdKey := voter, IdServiceSignatureKey := signature]))
         == Ok(v)
  {}

  lemma VerifiedVoterIdRoundTrip(v: VerifiedVoterId)
    ensures VerifiedVoterIdFromJson(VerifiedVoterIdJson(v)) == Ok(v)
  {
    VoterIdRequestRoundTrip(v.presented);
    BytesRoundTrip(v.signature);
    VerifiedVoterIdParts(VoterIdRequestJson(v.presented), Num(v.voterId), BytesToJson(v.signature), v);
  }

  lemma CheckinBodyParts(b: CheckinBody, verified: Json)
    ensures CheckinBodyAround(
              Obj(map[ClientIdNumKey := Num(b.clientId), TimestampKey := Num(b.timestamp),
                      LastNameKey := Str(b.lastName), FirstNameKey := Str(b.firstName),
                      MiddleNameKey := Str(b.middleName), VoterUniqueIdKey := Num(b.voterId),
                      VerifiedIdMessageKey := verified]), Ok(b.verified)) == Ok(b)
  {}

  lemma CheckinBodyRoundTrip(b: CheckinBody)
    ensures CheckinBodyFromJson(CheckinBodyJson(b)) == Ok(b)
  {
    VerifiedVoterIdRoundTrip(b.verified);
    CheckinBodyParts(b, VerifiedVoterIdJson(b.verified));
  }

  lemma {:induction false} CheckinRequestRoundTrip(r: CheckinRequest)
    ensures CheckinRequestFromJson(CheckinRequestJson(r)) == Ok(r)
  {
    CheckinBodyRoundTrip(r.body);
    BytesRoundTrip(r.signature);
  }

  lemma CheckinReplyBodyRoundTrip(b: CheckinReplyBody)
    ensures CheckinReplyBodyFromJson(CheckinReplyBodyJson(b)) == Ok(b)
  {
  }

  lemma CheckinResponseRoundTrip(r: CheckinResponse)
    ensures CheckinResponseFromJson(CheckinResponseJson(r)) == Ok(r)
  {
    CheckinReplyBodyRoundTrip(r.body);
    BytesRoundTrip(r.signature);
  }

  lemma TicketBodyRoundTrip(b: TicketBody)
    ensures TicketBodyFromJson(TicketBodyJson(b)) == Ok(b)
  {
  }

  lemma TicketRequestRoundTrip(r: TicketRequest)
    ensures TicketRequestFromJson(TicketRequestJson(r)) == Ok(r)
  {
    TicketBodyRoundTrip(r.body);
    BytesRoundTrip(r.signature);
  }

  lemma TicketReplyBodyRoundTrip(b: TicketReplyBody)
    ensures TicketReplyBodyFromJson(TicketReplyBodyJson(b)) == Ok(b)
  {
  }

  lemma TicketResponseRoundTrip(r: TicketResponse)
    ensures TicketResponseFromJson(TicketResponseJson(r)) == Ok(r)
  {
    TicketReplyBodyRoundTrip(r.body);
    BytesRoundTrip(r.signature);
  }

  // ------------------------------------------------------------- one body per signature

  /** Everything that any party of the protocol signs. */
  datatype SignedBody =
    | IdRequestBody(idRequest: VoterIdBody)
    | StatementBody(presented: VoterIdRequest, voterId: uint32)
    | CheckinRequestBody(checkin: CheckinBody)
    | CheckinReply(checkinReply: CheckinReplyBody)
    | TicketRequestBody(ticket: TicketBody)
    | TicketReply(ticketReply: TicketReplyBody)

  function BodyJson(b: SignedBody): Json {
    match b
    case IdRequestBody(x) => VoterIdBodyJson(x)
    case StatementBody(p, v) => StatementJson(p, v)
    case CheckinRequestBody(x) => CheckinBodyJson(x)
    case CheckinReply(x) => CheckinReplyBodyJson(x)
    case TicketRequestBody(x) => TicketBodyJson(x)
    case TicketReply(x) => TicketReplyBodyJson(x)
  }

  /** Two keys that only one of the six kinds of body has and lacks. */
  predicate HasKeys(j: Json, present: Key, absent: Key) {
    j.Obj? && present in j.fields && absent !in j.fields
  }

  lemma KindOfRequest(b: SignedBody)
    ensures b.IdRequestBody? <==> HasKeys(BodyJson(b), VoterIdDataKey, PinKey)
    ensures b.StatementBody? <==> HasKeys(BodyJson(b), PresentedIdKey, PinKey)
    ensures b.CheckinRequestBody? <==> HasKeys(BodyJson(b), VerifiedIdMessageKey, PinKey)
  {}

  lemma KindOfTicketing(b: SignedBody)
    ensures b.CheckinReply? <==> HasKeys(BodyJson(b), RequestingClientIdKey, PinKey)
    ensures b.TicketRequestBody? <==> HasKeys(BodyJson(b), TicketKey, ApprovedKey)
    ensures b.TicketReply? <==> HasKeys(BodyJson(b), SecretKey, TimestampKey)
  {}

  lemma StatementInjective(p: VoterIdRequest, v: uint32, q: VoterIdRequest, w: uint32)
    requires StatementJson(p, v) == StatementJson(q, w)
    ensures p == q && v == w
  {
    var x, y := StatementJson(p, v).fields, StatementJson(q, w).fields;
    assert x[PresentedIdKey] == y[PresentedIdKey] && x[VoterUniqueIdKey] == y[VoterUniqueIdKey];
    VoterIdRequestRoundTrip(p);
    VoterIdRequestRoundTrip(q);
  }

  /** A signed document determines the kind of body and every field of it, so no
      signature made for one body fits another, of the same kind or of a different one. */
  lemma {:induction false} BodyJsonInjective(a: SignedBody, b: SignedBody)
    requires BodyJson(a) == BodyJson(b)
    ensures a == b
  {
    KindOfRequest(a);
    KindOfRequest(b);
    KindOfTicketing(a);
    KindOfTicketing(b);
    match a
    case IdRequestBody(x) => VoterIdBodyRoundTrip(x); VoterIdBodyRoundTrip(b.idRequest);
    case StatementBody(p, v) => StatementInjective(p, v, b.presented, b.voterId);
    case CheckinRequestBody(x) => CheckinBodyRoundTrip(x); CheckinBodyRoundTrip(b.checkin);
    case CheckinReply(x) => CheckinReplyBodyRoundTrip(x); CheckinReplyBodyRoundTrip(b.checkinReply);
    case TicketRequestBody(x) => TicketBodyRoundTrip(x); TicketBodyRoundTrip(b.ticket);
    case TicketReply(x) => TicketReplyBodyRoundTrip(x); TicketReplyBodyRoundTrip(b.ticketReply);
  }

  /** The same for the documents that are written out, with their keys spelled: two signed documents
      are the same only if they are of one kind and agree in every field. */
  lemma {:induction false} DocumentInjective(a: SignedBody, b: SignedBody)
    requires Spelled(BodyJson(a)) == Spelled(BodyJson(b))
    ensures a == b
  {
    SpelledInjective(BodyJson(a), BodyJson(b));
    BodyJsonInjective(a, b);
  }
}
