/** The documents of the protocol as they are spelled: which member of each carries which field, and
    exactly which documents are read, as what. */
module Documents {
  import opened Text
  import opened Messages
  import Base64

  // --------------------------------------------------------------------------- as written

  function Octets(bs: seq<byte>): Document { StrValue(Base64.Encode(bs)) }

  lemma NothingSpelled()
    ensures Spelled(Obj(map[])) == Members(map[])
  {
    var none: map<Key, Json> := map[];
    assert (map k | k in none :: Spelled(none[k])) == map[];
    assert Named(map[]) == map[];
  }

  lemma MemberHasKey(x: map<Key, Document>, t: string) returns (k: Key)
    requires t in Named(x)
    ensures k in x && KeyText(k) == t
  {
    hide KeyText;
    k :| k in x && KeyText(k) == t;
  }

  lemma NamedAdded(x: map<Key, Document>, k: Key, d: Document)
    ensures Named(x[k := d]) == Named(x)[KeyText(k) := d]
  {
    hide KeyText; hide Named;
    KeysApart();
    var m, n := Named(x[k := d]), Named(x)[KeyText(k) := d];
    forall t | t in m ensures t in n && m[t] == n[t] {
      var i := MemberHasKey(x[k := d], t);
    }
    forall t | t in n ensures t in m {
      if t != KeyText(k) { var i := MemberHasKey(x, t); }
    }
  }

  /** One more member. */
  lemma MemberAdded(f: map<Key, Json>, m: map<string, Document>, k: Key, text: string, v: Json, d: Document)
    requires Spelled(Obj(f)) == Members(m) && KeyText(k) == text && Spelled(v) == d
    ensures Spelled(Obj(f[k := v])) == Members(m[text := d])
  {
    hide KeyText; hide Named;
    var g := f[k := v];
    var x, y := map i | i in f :: Spelled(f[i]), map i | i in g :: Spelled(g[i]);
    assert y == x[k := d];
    NamedAdded(x, k, d);
  }

  lemma Leaves()
    ensures forall n :: Spelled(Num(n)) == NumValue(n)
    ensures forall s :: Spelled(Str(s)) == StrValue(s)
    ensures forall b :: Spelled(Bool(b)) == BoolValue(b)
  {}

  /** What a kiosk signs to have an ID confirmed. */
  lemma {:induction false} VoterIdBodySpelled(b: VoterIdBody)
    ensures Spelled(VoterIdBodyJson(b)) == Members(map["client_id_num" := NumValue(b.clientId),
              "timestamp" := NumValue(b.timestamp), "last_name" := StrValue(b.lastName),
              "middle_name" := StrValue(b.middleName), "first_name" := StrValue(b.firstName),
              "voter_id_data" := Octets(b.idData)])
  {
    hide Spelled; hide Base64.Encode;
    Leaves();
    NothingSpelled();
    MemberAdded(map[], map[], ClientIdNumKey, "client_id_num", Num(b.clientId), NumValue(b.clientId));
    var f1, m1 := map[ClientIdNumKey := Num(b.clientId)], map["client_id_num" := NumValue(b.clientId)];
    MemberAdded(f1, m1, TimestampKey, "timestamp", Num(b.timestamp), NumValue(b.timestamp));
    var f2, m2 := f1[TimestampKey := Num(b.timestamp)], m1["timestamp" := NumValue(b.timestamp)];
    MemberAdded(f2, m2, LastNameKey, "last_name", Str(b.lastName), StrValue(b.lastName));
    var f3, m3 := f2[LastNameKey := Str(b.lastName)], m2["last_name" := StrValue(b.lastName)];
    MemberAdded(f3, m3, MiddleNameKey, "middle_name", Str(b.middleName), StrValue(b.middleName));
    var f4, m4 := f3[MiddleNameKey := Str(b.middleName)], m3["middle_name" := StrValue(b.middleName)];
    MemberAdded(f4, m4, FirstNameKey, "first_name", Str(b.firstName), StrValue(b.firstName));
    var f5, m5 := f4[FirstNameKey := Str(b.firstName)], m4["first_name" := StrValue(b.firstName)];
    MemberAdded(f5, m5, VoterIdDataKey, "voter_id_data", BytesToJson(b.idData), Octets(b.idData));
  }

  lemma {:induction false} VoterIdRequestSpelled(r: VoterIdRequest)
    ensures Spelled(VoterIdRequestJson(r)) == Members(map["body" := Spelled(VoterIdBodyJson(r.body)),
              "client_signature" := Octets(r.signature)])
  {
    hide Spelled; hide Base64.Encode;
    Leaves();
    NothingSpelled();
    MemberAdded(map[], map[], BodyKey, "body", VoterIdBodyJson(r.body), Spelled(VoterIdBodyJson(r.body)));
    var f1, m1 := map[BodyKey := VoterIdBodyJson(r.body)], map["body" := Spelled(VoterIdBodyJson(r.body))];
    MemberAdded(f1, m1, ClientSignatureKey, "client_signature", BytesToJson(r.signature), Octets(r.signature));
  }

  /** What the ID service signs. */
  lemma {:induction false} StatementSpelled(p: VoterIdRequest, v: uint32)
    ensures Spelled(StatementJson(p, v)) == Members(map["presented_id" := Spelled(VoterIdRequestJson(p)),
              "voter_unique_id" := NumValue(v)])
  {
    hide Spelled; hide Base64.Encode;
    Leaves();
    NothingSpelled();
    MemberAdded(map[], map[], PresentedIdKey, "presented_id", VoterIdRequestJson(p), Spelled(VoterIdRequestJson(p)));
    var f1, m1 := map[PresentedIdKey := VoterIdRequestJson(p)], map["presented_id" := Spelled(VoterIdRequestJson(p))];
    MemberAdded(f1, m1, VoterUniqueIdKey, "voter_unique_id", Num(v), NumValue(v));
  }

  lemma {:induction false} VerifiedVoterIdSpelled(v: VerifiedVoterId)
    ensures Spelled(VerifiedVoterIdJson(v)) == Members(map["presented_id" := Spelled(VoterIdRequestJson(v.presented)),
              "voter_unique_id" := NumValue(v.voterId), "id_service_signature" := Octets(v.signature)])
  {
    hide Spelled; hide Base64.Encode;
    Leaves();
    NothingSpelled();
    MemberAdded(map[], map[], PresentedIdKey, "presented_id", VoterIdRequestJson(v.presented),
                Spelled(VoterIdRequestJson(v.presented)));
    var f1 := map[PresentedIdKey := VoterIdRequestJson(v.presented)];
    var m1 := map["presented_id" := Spelled(VoterIdRequestJson(v.presented))];
    MemberAdded(f1, m1, VoterUniqueIdKey, "voter_unique_id", Num(v.voterId), NumValue(v.voterId));
    var f2, m2 := f1[VoterUniqueIdKey := Num(v.voterId)], m1["voter_unique_id" := NumValue(v.voterId)];
    MemberAdded(f2, m2, IdServiceSignatureKey, "id_service_signature", BytesToJson(v.signature), Octets(v.signature));
  }

  /** What a kiosk signs to check a voter in. */
  lemma {:induction false} CheckinBodySpelled(b: CheckinBody)
    ensures Spelled(CheckinBodyJson(b)) == Members(map["client_id_num" := NumValue(b.clientId),
              "timestamp" := NumValue(b.timestamp), "last_name" := StrValue(b.lastName),
              "first_name" := StrValue(b.firstName), "middle_name" := StrValue(b.middleName),
              "voter_unique_id" := NumValue(b.voterId),
              "verified_id_message" := Spelled(VerifiedVoterIdJson(b.verified))])
  {
    hide Spelled; hide Base64.Encode;
    Leaves();
    NothingSpelled();
    MemberAdded(map[], map[], ClientIdNumKey, "client_id_num", Num(b.clientId), NumValue(b.clientId));
    var f1, m1 := map[ClientIdNumKey := Num(b.clientId)], map["client_id_num" := NumValue(b.clientId)];
    MemberAdded(f1, m1, TimestampKey, "timestamp", Num(b.timestamp), NumValue(b.timestamp));
    var f2, m2 := f1[TimestampKey := Num(b.timestamp)], m1["timestamp" := NumValue(b.timestamp)];
    MemberAdded(f2, m2, LastNameKey, "last_name", Str(b.lastName), StrValue(b.lastName));
    var f3, m3 := f2[LastNameKey := Str(b.lastName)], m2["last_name" := StrValue(b.lastName)];
    MemberAdded(f3, m3, FirstNameKey, "first_name", Str(b.firstName), StrValue(b.firstName));
    var f4, m4 := f3[FirstNameKey := Str(b.firstName)], m3["first_name" := StrValue(b.firstName)];
    MemberAdded(f4, m4, MiddleNameKey, "middle_name", Str(b.middleName), StrValue(b.middleName));
    var f5, m5 := f4[MiddleNameKey := Str(b.middleName)], m4["middle_name" := StrValue(b.middleName)];
    MemberAdded(f5, m5, VoterUniqueIdKey, "voter_unique_id", Num(b.voterId), NumValue(b.voterId));
    var f6, m6 := f5[VoterUniqueIdKey := Num(b.voterId)], m5["voter_unique_id" := NumValue(b.voterId)];
    MemberAdded(f6, m6, VerifiedIdMessageKey, "verified_id_message", VerifiedVoterIdJson(b.verified),
                Spelled(VerifiedVoterIdJson(b.verified)));
  }

  lemma {:induction false} CheckinRequestSpelled(r: CheckinRequest)
    ensures Spelled(CheckinRequestJson(r)) == Members(map["body" := Spelled(CheckinBodyJson(r.body)),
              "client_signature" := Octets(r.signature)])
  {
    hide Spelled; hide Base64.Encode;
    Leaves();
    NothingSpelled();
    MemberAdded(map[], map[], BodyKey, "body", CheckinBodyJson(r.body), Spelled(CheckinBodyJson(r.body)));
    var f1, m1 := map[BodyKey := CheckinBodyJson(r.body)], map["body" := Spelled(CheckinBodyJson(r.body))];
    MemberAdded(f1, m1, ClientSignatureKey, "client_signature", BytesToJson(r.signature), Octets(r.signature));
  }

  /** What the check-in service signs for a kiosk. */
  lemma {:induction false} CheckinReplyBodySpelled(b: CheckinReplyBody)
    ensures Spelled(CheckinReplyBodyJson(b)) == Members(map["approved" := BoolValue(b.approved),
              "requesting_client_id" := NumValue(b.clientId), "timestamp" := NumValue(b.timestamp),
              "last_name" := StrValue(b.lastName), "first_name" := StrValue(b.firstName),
              "middle_name" := StrValue(b.middleName), "voter_unique_id" := NumValue(b.voterId),
              "ticket" := StrValue(b.ticket)])
  {
    hide Spelled; hide Base64.Encode;
    Leaves();
    NothingSpelled();
    MemberAdded(map[], map[], ApprovedKey, "approved", Bool(b.approved), BoolValue(b.approved));
    var f1, m1 := map[ApprovedKey := Bool(b.approved)], map["approved" := BoolValue(b.approved)];
    MemberAdded(f1, m1, RequestingClientIdKey, "requesting_client_id", Num(b.clientId), NumValue(b.clientId));
    var f2, m2 := f1[RequestingClientIdKey := Num(b.clientId)], m1["requesting_client_id" := NumValue(b.clientId)];
    MemberAdded(f2, m2, TimestampKey, "timestamp", Num(b.timestamp), NumValue(b.timestamp));
    var f3, m3 := f2[TimestampKey := Num(b.timestamp)], m2["timestamp" := NumValue(b.timestamp)];
    MemberAdded(f3, m3, LastNameKey, "last_name", Str(b.lastName), StrValue(b.lastName));
    var f4, m4 := f3[LastNameKey := Str(b.lastName)], m3["last_name" := StrValue(b.lastName)];
    MemberAdded(f4, m4, FirstNameKey, "first_name", Str(b.firstName), StrValue(b.firstName));
    var f5, m5 := f4[FirstNameKey := Str(b.firstName)], m4["first_name" := StrValue(b.firstName)];
    MemberAdded(f5, m5, MiddleNameKey, "middle_name", Str(b.middleName), StrValue(b.middleName));
    var f6, m6 := f5[MiddleNameKey := Str(b.middleName)], m5["middle_name" := StrValue(b.middleName)];
    MemberAdded(f6, m6, VoterUniqueIdKey, "voter_unique_id", Num(b.voterId), NumValue(b.voterId));
    var f7, m7 := f6[VoterUniqueIdKey := Num(b.voterId)], m6["voter_unique_id" := NumValue(b.voterId)];
    MemberAdded(f7, m7, TicketKey, "ticket", Str(b.ticket), StrValue(b.ticket));
  }

  lemma {:induction false} CheckinResponseSpelled(r: CheckinResponse)
    ensures Spelled(CheckinResponseJson(r)) == Members(map["body" := Spelled(CheckinReplyBodyJson(r.body)),
              "checkin_service_signature" := Octets(r.signature)])
  {
    hide Spelled; hide Base64.Encode;
    Leaves();
    NothingSpelled();
    MemberAdded(map[], map[], BodyKey, "body", CheckinReplyBodyJson(r.body), Spelled(CheckinReplyBodyJson(r.body)));
    var f1, m1 := map[BodyKey := CheckinReplyBodyJson(r.body)], map["body" := Spelled(CheckinReplyBodyJson(r.body))];
    MemberAdded(f1, m1, CheckinServiceSignatureKey, "checkin_service_signature", BytesToJson(r.signature),
                Octets(r.signature));
  }

  /** What a trusted device signs to redeem a ticket. */
  lemma {:induction false} TicketBodySpelled(b: TicketBody)
    ensures Spelled(TicketBodyJson(b)) == Members(map["client_id" := NumValue(b.clientId),
              "timestamp" := NumValue(b.timestamp), "ticket" := StrValue(b.ticket), "pin" := NumValue(b.pin)])
  {
    hide Spelled; hide Base64.Encode;
    Leaves();
    NothingSpelled();
    MemberAdded(map[], map[], ClientIdKey, "client_id", Num(b.clientId), NumValue(b.clientId));
    var f1, m1 := map[ClientIdKey := Num(b.clientId)], map["client_id" := NumValue(b.clientId)];
    MemberAdded(f1, m1, TimestampKey, "timestamp", Num(b.timestamp), NumValue(b.timestamp));
    var f2, m2 := f1[TimestampKey := Num(b.timestamp)], m1["timestamp" := NumValue(b.timestamp)];
    MemberAdded(f2, m2, TicketKey, "ticket", Str(b.ticket), StrValue(b.ticket));
    var f3, m3 := f2[TicketKey := Str(b.ticket)], m2["ticket" := StrValue(b.ticket)];
    MemberAdded(f3, m3, PinKey, "pin", Num(b.pin), NumValue(b.pin));
  }

  lemma {:induction false} TicketRequestSpelled(r: TicketRequest)
    ensures Spelled(TicketRequestJson(r)) == Members(map["body" := Spelled(TicketBodyJson(r.body)),
              "signature" := Octets(r.signature)])
  {
    hide Spelled; hide Base64.Encode;
    Leaves();
    NothingSpelled();
    MemberAdded(map[], map[], BodyKey, "body", TicketBodyJson(r.body), Spelled(TicketBodyJson(r.body)));
    var f1, m1 := map[BodyKey := TicketBodyJson(r.body)], map["body" := Spelled(TicketBodyJson(r.body))];
    MemberAdded(f1, m1, SignatureKey, "signature", BytesToJson(r.signature), Octets(r.signature));
  }

  /** What the check-in service signs for a trusted device. */
  lemma {:induction false} TicketReplyBodySpelled(b: TicketReplyBody)
    ensures Spelled(TicketReplyBodyJson(b)) == Members(map["approved" := BoolValue(b.approved),
              "last_name" := StrValue(b.lastName), "first_name" := StrValue(b.firstName),
              "middle_name" := StrValue(b.middleName), "voter_unique_id" := NumValue(b.voterId),
              "pin" := NumValue(b.pin), "secret" := StrValue(b.secret)])
  {
    hide Spelled; hide Base64.Encode;
    Leaves();
    NothingSpelled();
    MemberAdded(map[], map[], ApprovedKey, "approved", Bool(b.approved), BoolValue(b.approved));
    var f1, m1 := map[ApprovedKey := Bool(b.approved)], map["approved" := BoolValue(b.approved)];
    MemberAdded(f1, m1, LastNameKey, "last_name", Str(b.lastName), StrValue(b.lastName));
    var f2, m2 := f1[LastNameKey := Str(b.lastName)], m1["last_name" := StrValue(b.lastName)];
    MemberAdded(f2, m2, FirstNameKey, "first_name", Str(b.firstName), StrValue(b.firstName));
    var f3, m3 := f2[FirstNameKey := Str(b.firstName)], m2["first_name" := StrValue(b.firstName)];
    MemberAdded(f3, m3, MiddleNameKey, "middle_name", Str(b.middleName), StrValue(b.middleName));
    var f4, m4 := f3[MiddleNameKey := Str(b.middleName)], m3["middle_name" := StrValue(b.middleName)];
    MemberAdded(f4, m4, VoterUniqueIdKey, "voter_unique_id", Num(b.voterId), NumValue(b.voterId));
    var f5, m5 := f4[VoterUniqueIdKey := Num(b.voterId)], m4["voter_unique_id" := NumValue(b.voterId)];
    MemberAdded(f5, m5, PinKey, "pin", Num(b.pin), NumValue(b.pin));
    var f6, m6 := f5[PinKey := Num(b.pin)], m5["pin" := NumValue(b.pin)];
    MemberAdded(f6, m6, SecretKey, "secret", Str(b.secret), StrValue(b.secret));
  }

  lemma {:induction false} TicketResponseSpelled(r: TicketResponse)
    ensures Spelled(TicketResponseJson(r)) == Members(map["body" := Spelled(TicketReplyBodyJson(r.body)),
              "signature" := Octets(r.signature)])
  {
    hide Spelled; hide Base64.Encode;
    Leaves();
    NothingSpelled();
    MemberAdded(map[], map[], BodyKey, "body", TicketReplyBodyJson(r.body), Spelled(TicketReplyBodyJson(r.body)));
    var f1, m1 := map[BodyKey := TicketReplyBodyJson(r.body)], map["body" := Spelled(TicketReplyBodyJson(r.body))];
    MemberAdded(f1, m1, SignatureKey, "signature", BytesToJson(r.signature), Octets(r.signature));
  }

  // ----------------------------------------------------------------------------- as read

  predicate Uint32At(j: Json, k: Key, n: uint32) {
    j.Obj? && k in j.fields &&
    match j.fields[k]
    case Num(m) => n == m % 4294967296
    case Bool(b) => n == if b then 1 else 0
    case _ => false
  }

  predicate Uint64At(j: Json, k: Key, n: uint64) {
    j.Obj? && k in j.fields && j.fields[k].Num? && n == j.fields[k].n % 18446744073709551616
  }

  predicate StringAt(j: Json, k: Key, s: string) { j.Obj? && k in j.fields && j.fields[k] == Str(s) }

  predicate BoolAt(j: Json, k: Key, b: bool) { j.Obj? && k in j.fields && j.fields[k] == Bool(b) }

  predicate BytesAt(j: Json, k: Key, bs: seq<byte>) {
    j.Obj? && k in j.fields && j.fields[k].Str? && Base64.Decode(j.fields[k].s) == Some(bs)
  }

  predicate VoterIdBodyAt(j: Json, b: VoterIdBody) {
    && Uint32At(j, ClientIdNumKey, b.clientId) && Uint64At(j, TimestampKey, b.timestamp)
    && StringAt(j, LastNameKey, b.lastName) && StringAt(j, MiddleNameKey, b.middleName)
    && StringAt(j, FirstNameKey, b.firstName) && BytesAt(j, VoterIdDataKey, b.idData)
  }

  predicate VoterIdRequestAt(j: Json, r: VoterIdRequest) {
    && j.Obj? && BodyKey in j.fields && VoterIdBodyAt(j.fields[BodyKey], r.body)
    && BytesAt(j, ClientSignatureKey, r.signature)
  }

  predicate VerifiedVoterIdAt(j: Json, v: VerifiedVoterId) {
    && j.Obj? && PresentedIdKey in j.fields && VoterIdRequestAt(j.fields[PresentedIdKey], v.presented)
    && Uint32At(j, VoterUniqueIdKey, v.voterId) && BytesAt(j, IdServiceSignatureKey, v.signature)
  }

  predicate CheckinBodyAt(j: Json, b: CheckinBody) {
    && Uint32At(j, ClientIdNumKey, b.clientId) && Uint64At(j, TimestampKey, b.timestamp)
    && StringAt(j, LastNameKey, b.lastName) && StringAt(j, FirstNameKey, b.firstName)
    && StringAt(j, MiddleNameKey, b.middleName) && Uint32At(j, VoterUniqueIdKey, b.voterId)
    && VerifiedIdMessageKey in j.fields && VerifiedVoterIdAt(j.fields[VerifiedIdMessageKey], b.verified)
  }

  predicate CheckinRequestAt(j: Json, r: CheckinRequest) {
    && j.Obj? && BodyKey in j.fields && CheckinBodyAt(j.fields[BodyKey], r.body)
    && BytesAt(j, ClientSignatureKey, r.signature)
  }

  predicate CheckinReplyBodyAt(j: Json, b: CheckinReplyBody) {
    && BoolAt(j, ApprovedKey, b.approved) && Uint32At(j, RequestingClientIdKey, b.clientId)
    && Uint64At(j, TimestampKey, b.timestamp) && StringAt(j, LastNameKey, b.lastName)
    && StringAt(j, FirstNameKey, b.firstName) && StringAt(j, MiddleNameKey, b.middleName)
    && Uint32At(j, VoterUniqueIdKey, b.voterId) && StringAt(j, TicketKey, b.ticket)
  }

  predicate TicketBodyAt(j: Json, b: TicketBody) {
    && Uint32At(j, ClientIdKey, b.clientId) && Uint64At(j, TimestampKey, b.timestamp)
    && StringAt(j, TicketKey, b.ticket) && Uint32At(j, PinKey, b.pin)
  }

  predicate TicketReplyBodyAt(j: Json, b: TicketReplyBody) {
    && BoolAt(j, ApprovedKey, b.approved) && StringAt(j, LastNameKey, b.lastName)
    && StringAt(j, FirstNameKey, b.firstName) && StringAt(j, MiddleNameKey, b.middleName)
    && Uint32At(j, VoterUniqueIdKey, b.voterId) && StringAt(j, SecretKey, b.secret) && Uint32At(j, PinKey, b.pin)
  }

  lemma VoterIdBodyRead(j: Json, b: VoterIdBody)
    ensures VoterIdBodyFromJson(j) == Ok(b) <==> VoterIdBodyAt(j, b)
  {}

  /** An ID request is read exactly when every member is there and of its kind, as what they hold; numbers
      are cut to their width. */
  lemma {:induction false} VoterIdRequestRead(j: Json, r: VoterIdRequest)
    ensures VoterIdRequestFromJson(j) == Ok(r) <==> VoterIdRequestAt(j, r)
  {
    hide VoterIdBodyFromJson; hide VoterIdBodyAt;
    if j.Obj? && BodyKey in j.fields { VoterIdBodyRead(j.fields[BodyKey], r.body); }
  }

  /** The same for a statement of the ID service. */
  lemma {:induction false} VerifiedVoterIdRead(j: Json, v: VerifiedVoterId)
    ensures VerifiedVoterIdFromJson(j) == Ok(v) <==> VerifiedVoterIdAt(j, v)
  {
    hide VoterIdRequestFromJson; hide VoterIdRequestAt;
    if j.Obj? && PresentedIdKey in j.fields { VoterIdRequestRead(j.fields[PresentedIdKey], v.presented); }
  }

  lemma CheckinBodyRead(j: Json, b: CheckinBody)
    ensures CheckinBodyFromJson(j) == Ok(b) <==> CheckinBodyAt(j, b)
  {
    hide VerifiedVoterIdFromJson; hide VerifiedVoterIdAt;
    if j.Obj? && VerifiedIdMessageKey in j.fields { VerifiedVoterIdRead(j.fields[VerifiedIdMessageKey], b.verified); }
  }

  /** The same for a check-in request. */
  lemma {:induction false} CheckinRequestRead(j: Json, r: CheckinRequest)
    ensures CheckinRequestFromJson(j) == Ok(r) <==> CheckinRequestAt(j, r)
  {
    hide CheckinBodyFromJson; hide CheckinBodyAt;
    if j.Obj? && BodyKey in j.fields { CheckinBodyRead(j.fields[BodyKey], r.body); }
  }

  lemma CheckinReplyBodyRead(j: Json, b: CheckinReplyBody)
    ensures CheckinReplyBodyFromJson(j) == Ok(b) <==> CheckinReplyBodyAt(j, b)
  {}

  /** The same for the reply to it. */
  lemma {:induction false} CheckinResponseRead(j: Json, r: CheckinResponse)
    ensures CheckinResponseFromJson(j) == Ok(r) <==>
              j.Obj? && BodyKey in j.fields && CheckinReplyBodyAt(j.fields[BodyKey], r.body) &&
              BytesAt(j, CheckinServiceSignatureKey, r.signature)
  {
    hide CheckinReplyBodyFromJson; hide CheckinReplyBodyAt;
    if j.Obj? && BodyKey in j.fields { CheckinReplyBodyRead(j.fields[BodyKey], r.body); }
  }

  lemma TicketBodyRead(j: Json, b: TicketBody)
    ensures TicketBodyFromJson(j) == Ok(b) <==> TicketBodyAt(j, b)
  {}

  /** The same for a ticket request. */
  lemma {:induction false} TicketRequestRead(j: Json, r: TicketRequest)
    ensures TicketRequestFromJson(j) == Ok(r) <==>
              j.Obj? && BodyKey in j.fields && TicketBodyAt(j.fields[BodyKey], r.body) &&
              BytesAt(j, SignatureKey, r.signature)
  {
    hide TicketBodyFromJson; hide TicketBodyAt;
    if j.Obj? && BodyKey in j.fields { TicketBodyRead(j.fields[BodyKey], r.body); }
  }

  lemma TicketReplyBodyRead(j: Json, b: TicketReplyBody)
    ensures TicketReplyBodyFromJson(j) == Ok(b) <==> TicketReplyBodyAt(j, b)
  {}

  /** The same for the reply to it. */
  lemma {:induction false} TicketResponseRead(j: Json, r: TicketResponse)
    ensures TicketResponseFromJson(j) == Ok(r) <==>
              j.Obj? && BodyKey in j.fields && TicketReplyBodyAt(j.fields[BodyKey], r.body) &&
              BytesAt(j, SignatureKey, r.signature)
  {
    hide TicketReplyBodyFromJson; hide TicketReplyBodyAt;
    if j.Obj? && BodyKey in j.fields { TicketReplyBodyRead(j.fields[BodyKey], r.body); }
  }
}
