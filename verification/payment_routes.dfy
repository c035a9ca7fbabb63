/**
 * `backend/routes/payment_routes.py`: the two steps of a voice payment.
 * `initiate` checks the speaker, parses the transcribed command and finds the
 * receiver among the user's contacts by name prefix; `confirm` checks the
 * speaker again, finds the receiver by exact name, builds and seals the packet
 * and hands it to the in-process bank. Voice verification, liveness and
 * transcription are inputs; the key files and the users file are the state.
 * A third route, `packet`, hands its validated body to `create_packet`.
 */
module PaymentRoutes {
  import opened Wrappers
  import opened Bytes
  import opened Text
  import opened JsonCodec
  import opened Crypto
  import opened BankKeys
  import opened PaymentService
  import opened EncryptionService
  import opened MeshService
  import opened UserStore
  import opened NlpParse

  /** What `verify_voice` (`exists`, `verified`) and `check_liveness` report about the recording. */
  datatype VoiceChecks = VoiceChecks(enrolled: bool, verified: bool, live: bool)

  /** The `detail` of an `HTTPException`; exception texts appended by `initiate` are not modelled. */
  datatype HttpReason = UnknownUser | InitiationFailed | ConfirmationFailed

  datatype PaymentInfo = PaymentInfo(receiverName: Json, amount: int, currency: string)

  /** The route's answer: a JSON body with `success`, or an HTTP 400. */
  datatype Response =
    | Failure(error: string)
    | Success(info: PaymentInfo, rawText: Option<string>)
    | HttpError(status: int, reason: HttpReason)

  const BadRequest := 400
  const Currency := "INR"
  const NoEnrolledVoice := "No enrolled voice for this user"
  const CommandVoiceFailed := "Voice verification failed for command"
  const CommandLivenessFailed := "Liveness check failed for command"
  const ConfirmVoiceFailed := "Voice verification failed during confirmation"
  const ConfirmLivenessFailed := "Liveness check failed"
  const ForwardFailed := "Failed to forward packet to bank server"

  function NotParsed(heard: string): string {
    "Could not parse payment command. Heard: '" + heard + "'"
  }

  function NotInContacts(receiver: string): string {
    "Receiver '" + receiver + "' not found in contacts"
  }

  /** `f"ACC-{x}"`: a string id is used as is; other values go through `str` (`pyStr`). */
  function Account(pyStr: Json -> string, id: Json): string {
    "ACC-" + (if id.JString? then id.s else pyStr(id))
  }

  // ---------------------------------------------------------------- contact matching

  /** `for c in contacts`: a list yields its items, an empty dict or string nothing, anything else raises. */
  function ContactItems(contacts: Json): (r: Option<seq<Json>>)
    ensures contacts.JArray? ==> r == Some(contacts.items)
    ensures r.Some? && r.value != [] ==> contacts.JArray?
  {
    match contacts
    case JArray(items) => Some(items)
    case JObject(fields) => if fields == map[] then Some([]) else None
    case JString(s) => if s == "" then Some([]) else None
    case _ => None
  }

  /** `c.get("name", "")`, None when `c` is not a dict or the name is not a string (`.lower()` raises). */
  function ContactName(c: Json): (r: Option<string>)
    ensures r.Some? ==> c.JObject?
    ensures r.Some? && "name" in c.fields ==> c.fields["name"] == JString(r.value)
    ensures r.Some? && "name" !in c.fields ==> r.value == ""
  {
    if !c.JObject? then None
    else if "name" !in c.fields then Some("")
    else if c.fields["name"].JString? then Some(c.fields["name"].s)
    else None
  }

  /** `initiate` matches by prefix of the lower-cased name, `confirm` by equality. */
  datatype MatchRule = NamePrefix | NameEquals

  predicate NameMatches(rule: MatchRule, nameLower: string, target: string) {
    match rule
    case NamePrefix => StartsWith(nameLower, target)
    case NameEquals => nameLower == target
  }

  /** How the matching loop ends: `break` on a contact, falling off the end, or an exception. */
  datatype Lookup = Found(contact: map<string, Json>) | NotFound | Raised

  /** The contact the loop settles on, scanning in list order. */
  function FirstContact(items: seq<Json>, rule: MatchRule, target: string): (r: Lookup)
    ensures r.Found? ==> JObject(r.contact) in items
  {
    if items == [] then NotFound
    else
      match ContactName(items[0])
      case None => Raised
      case Some(name) =>
        if NameMatches(rule, Lower(name), target) then Found(items[0].fields)
        else FirstContact(items[1..], rule, target)
  }

  /** The matching loop of `initiate_payment` and `confirm_payment`. */
  method FindContact(items: seq<Json>, rule: MatchRule, target: string) returns (r: Lookup)
    ensures r == FirstContact(items, rule, target)
  {
    var i := 0;
    while i < |items|
      invariant 0 <= i <= |items|
      invariant FirstContact(items[i..], rule, target) == FirstContact(items, rule, target)
    {
      assert items[i..][1..] == items[i + 1..];
      var name := ContactName(items[i]);
      if name.None? {
        return Raised;
      }
      if NameMatches(rule, Lower(name.value), target) {
        return Found(items[i].fields);
      }
      i := i + 1;
    }
    return NotFound;
  }

  /** The entries before `i` were read without error and did not match. */
  predicate PassedOver(items: seq<Json>, rule: MatchRule, target: string, i: int)
    requires 0 <= i <= |items|
  {
    forall k :: 0 <= k < i ==> ContactName(items[k]).Some? && !NameMatches(rule, Lower(ContactName(items[k]).value), target)
  }

  /** The loop stops at the first entry, in list order, whose name matches. */
  lemma {:induction false} FirstContactIsFirst(items: seq<Json>, rule: MatchRule, target: string, i: int)
    requires 0 <= i < |items| && PassedOver(items, rule, target, i)
    requires ContactName(items[i]).Some? && NameMatches(rule, Lower(ContactName(items[i]).value), target)
    ensures FirstContact(items, rule, target) == Found(items[i].fields)
    decreases i
  {
    if i > 0 {
      assert PassedOver(items[1..], rule, target, i - 1) by {
        forall k | 0 <= k < i - 1 ensures items[1..][k] == items[k + 1] { }
      }
      assert items[1..][i - 1] == items[i];
      FirstContactIsFirst(items[1..], rule, target, i - 1);
    }
  }

  /** Passing over a non-empty list is passing over its head and then its tail. */
  lemma PassedOverCons(items: seq<Json>, rule: MatchRule, target: string)
    requires items != []
    ensures PassedOver(items, rule, target, |items|) <==>
      && ContactName(items[0]).Some? && !NameMatches(rule, Lower(ContactName(items[0]).value), target)
      && PassedOver(items[1..], rule, target, |items| - 1)
  {
    if PassedOver(items, rule, target, |items|) {
      forall k | 0 <= k < |items| - 1 ensures items[1..][k] == items[k + 1] { }
    }
    if ContactName(items[0]).Some? && !NameMatches(rule, Lower(ContactName(items[0]).value), target)
       && PassedOver(items[1..], rule, target, |items| - 1) {
      forall k | 0 <= k < |items|
        ensures ContactName(items[k]).Some? && !NameMatches(rule, Lower(ContactName(items[k]).value), target)
      {
        if k > 0 {
          assert items[k] == items[1..][k - 1];
        }
      }
    }
  }

  /** The loop ends without a contact exactly when every entry is read and none matches. */
  lemma {:induction false} FirstContactNotFound(items: seq<Json>, rule: MatchRule, target: string)
    ensures FirstContact(items, rule, target) == NotFound <==> PassedOver(items, rule, target, |items|)
    decreases |items|
  {
    if items != [] {
      FirstContactNotFound(items[1..], rule, target);
      PassedOverCons(items, rule, target);
    }
  }

  // ---------------------------------------------------------------- initiate

  /** What `initiate_payment` answers for the transcript `heard`, against the users document `doc`. */
  function Initiate(doc: Json, userId: string, checks: VoiceChecks, heard: string): Response {
    if !checks.enrolled then Failure(NoEnrolledVoice)
    else if !checks.verified then Failure(CommandVoiceFailed)
    else if !checks.live then Failure(CommandLivenessFailed)
    else
      var action, amount, receiver := ExtractAction(heard), ExtractAmount(heard), Receiver(heard);
      if action.None? || amount.None? || receiver.None? || receiver.value == "" then Failure(NotParsed(heard))
      else
        ResolveReceiver(doc, userId, receiver.value, amount.value, heard)
  }

  /** The second half of `initiate_payment`: the user's contacts are searched for the parsed receiver. */
  function ResolveReceiver(doc: Json, userId: string, receiver: string, amount: int, heard: string): Response {
    match GetUser(doc, userId)
    case Err(_) => HttpError(BadRequest, InitiationFailed)
    case Ok(user) =>
      if user.None? || !Truthy(user.value) then HttpError(BadRequest, UnknownUser)
      else
        match ListContacts(doc, userId)
        case Err(_) => HttpError(BadRequest, InitiationFailed)
        case Ok(contacts) =>
          match ContactItems(contacts)
          case None => HttpError(BadRequest, InitiationFailed)
          case Some(items) =>
            match FirstContact(items, NamePrefix, Lower(receiver))
            case Raised => HttpError(BadRequest, InitiationFailed)
            case NotFound => Failure(NotInContacts(receiver))
            case Found(contact) =>
              if contact == map[] then Failure(NotInContacts(receiver))
              else if "name" !in contact then HttpError(BadRequest, InitiationFailed)
              else Success(PaymentInfo(contact["name"], amount, Currency), Some(heard))
  }

  /** `initiate_payment`: reads the users file, changes nothing. */
  method InitiatePayment(users: UserStore.Store, userId: string, checks: VoiceChecks, heard: string)
    returns (resp: Response)
    ensures resp == Initiate(users.Users(), userId, checks, heard)
  {
    if !checks.enrolled {
      return Failure(NoEnrolledVoice);
    }
    if !checks.verified {
      return Failure(CommandVoiceFailed);
    }
    if !checks.live {
      return Failure(CommandLivenessFailed);
    }
    var action := ExtractAction(heard);
    var amount := ExtractAmount(heard);
    var receiver := ExtractReceiver(heard);
    if action.None? || amount.None? || receiver.None? || receiver.value == "" {
      return Failure(NotParsed(heard));
    }
    var doc := users.Users();
    var user := GetUser(doc, userId);
    if user.Err? {
      return HttpError(BadRequest, InitiationFailed);
    }
    if user.value.None? || !Truthy(user.value.value) {
      return HttpError(BadRequest, UnknownUser);
    }
    var contacts := ListContacts(doc, userId);
    if contacts.Err? || ContactItems(contacts.value).None? {
      return HttpError(BadRequest, InitiationFailed);
    }
    var matched := FindContact(ContactItems(contacts.value).value, NamePrefix, Lower(receiver.value));
    if matched.Raised? {
      return HttpError(BadRequest, InitiationFailed);
    }
    if matched.NotFound? || matched.contact == map[] {
      return Failure(NotInContacts(receiver.value));
    }
    if "name" !in matched.contact {
      return HttpError(BadRequest, InitiationFailed);
    }
    return Success(PaymentInfo(matched.contact["name"], amount.value, Currency), Some(heard));
  }

  /**
   * The checks run in order, voiceprint, verification, liveness, then parsing,
   * and the first that fails decides the answer before the users file is read.
   */
  lemma InitiateChecksFirst(doc1: Json, doc2: Json, userId: string, checks: VoiceChecks, heard: string)
    requires !checks.enrolled || !checks.verified || !checks.live || ExtractAction(heard).None?
             || ExtractAmount(heard).None? || Receiver(heard).None? || Receiver(heard) == Some("")
    ensures Initiate(doc1, userId, checks, heard) == Initiate(doc2, userId, checks, heard)
    ensures Initiate(doc1, userId, checks, heard) ==
      Failure(if !checks.enrolled then NoEnrolledVoice
              else if !checks.verified then CommandVoiceFailed
              else if !checks.live then CommandLivenessFailed
              else NotParsed(heard))
  {
  }

  /** The lookup answers with the first contact, in list order, whose lower-cased name starts with the target. */
  lemma ResolveFindsFirstPrefixMatch(doc: Json, userId: string, receiver: string, amount: int, heard: string,
                                     items: seq<Json>, i: int)
    requires receiver != ""
    requires doc.JObject? && userId in doc.fields && Truthy(doc.fields[userId])
    requires ListContacts(doc, userId) == Ok(JArray(items))
    requires 0 <= i < |items| && PassedOver(items, NamePrefix, Lower(receiver), i)
    requires ContactName(items[i]).Some?
    requires StartsWith(Lower(ContactName(items[i]).value), Lower(receiver))
    ensures ResolveReceiver(doc, userId, receiver, amount, heard)
         == Success(PaymentInfo(items[i].fields["name"], amount, Currency), Some(heard))
  {
    FirstContactIsFirst(items, NamePrefix, Lower(receiver), i);
    assert |Lower(ContactName(items[i]).value)| >= |Lower(receiver)| > 0;
  }

  /**
   * With the checks passed and the command parsed, `initiate` answers with the
   * first contact, in list order, whose lower-cased name starts with the
   * lower-cased receiver: its full name, the amount, and INR.
   */
  lemma InitiateFindsFirstPrefixMatch(doc: Json, userId: string, checks: VoiceChecks, heard: string,
                                      items: seq<Json>, i: int)
    requires checks.enrolled && checks.verified && checks.live
    requires ExtractAction(heard).Some? && ExtractAmount(heard).Some?
    requires Receiver(heard).Some? && Receiver(heard).value != ""
    requires doc.JObject? && userId in doc.fields && Truthy(doc.fields[userId])
    requires ListContacts(doc, userId) == Ok(JArray(items))
    requires 0 <= i < |items| && PassedOver(items, NamePrefix, Lower(Receiver(heard).value), i)
    requires ContactName(items[i]).Some?
    requires StartsWith(Lower(ContactName(items[i]).value), Lower(Receiver(heard).value))
    ensures Initiate(doc, userId, checks, heard)
         == Success(PaymentInfo(items[i].fields["name"], ExtractAmount(heard).value, Currency), Some(heard))
  {
    ResolveFindsFirstPrefixMatch(doc, userId, Receiver(heard).value, ExtractAmount(heard).value, heard, items, i);
  }

  /** The lookup answers "not found" when no contact's lower-cased name starts with the target. */
  lemma ResolveReceiverNotFound(doc: Json, userId: string, receiver: string, amount: int, heard: string,
                                items: seq<Json>)
    requires doc.JObject? && userId in doc.fields && Truthy(doc.fields[userId])
    requires ListContacts(doc, userId) == Ok(JArray(items))
    requires PassedOver(items, NamePrefix, Lower(receiver), |items|)
    ensures ResolveReceiver(doc, userId, receiver, amount, heard) == Failure(NotInContacts(receiver))
  {
    FirstContactNotFound(items, NamePrefix, Lower(receiver));
  }

  /** When no contact's name starts with the receiver, `initiate` answers "not found". */
  lemma InitiateReceiverNotFound(doc: Json, userId: string, checks: VoiceChecks, heard: string, items: seq<Json>)
    requires checks.enrolled && checks.verified && checks.live
    requires ExtractAction(heard).Some? && ExtractAmount(heard).Some?
    requires Receiver(heard).Some? && Receiver(heard).value != ""
    requires doc.JObject? && userId in doc.fields && Truthy(doc.fields[userId])
    requires ListContacts(doc, userId) == Ok(JArray(items))
    requires PassedOver(items, NamePrefix, Lower(Receiver(heard).value), |items|)
    ensures Initiate(doc, userId, checks, heard) == Failure(NotInContacts(Receiver(heard).value))
  {
    ResolveReceiverNotFound(doc, userId, Receiver(heard).value, ExtractAmount(heard).value, heard, items);
  }

  // ---------------------------------------------------------------- packet

  /** The body of `POST /packet` once validated as a `PaymentReq`; a body without `ttl` gets 60. */
  datatype PaymentReq = PaymentReq(
    senderId: string, senderName: string, senderAccount: string,
    receiverName: string, receiverAccount: string, amount: int, ttl: int := DefaultTtl)

  /**
   * `POST /packet`: the unsealed packet built from the request, with the fresh
   * `uuid4()` as `packetId` and the clock's `timestamp`.
   */
  function PacketRoute(req: PaymentReq, packetId: string, timestamp: string): (packet: map<string, Json>)
    ensures packet.Keys == PacketKeys
    ensures packet["packet_id"] == JString(packetId) && packet["timestamp"] == JString(timestamp)
    ensures packet["sender_id"] == JString(req.senderId) && packet["sender_name"] == JString(req.senderName)
    ensures packet["sender_account"] == JString(req.senderAccount)
    ensures packet["receiver_name"] == JString(req.receiverName)
    ensures packet["receiver_account"] == JString(req.receiverAccount)
    ensures packet["amount"] == JInt(req.amount) && packet["ttl"] == JInt(req.ttl)
  {
    CreatePacket(packetId, timestamp, JString(req.senderId), JString(req.senderName),
                 JString(req.senderAccount), JString(req.receiverName),
                 JString(req.receiverAccount), JInt(req.amount), JInt(req.ttl))
  }

  /** Two requests get the same packet, for the same id and time, only if they are the same request. */
  lemma PacketRouteInjective(r1: PaymentReq, r2: PaymentReq, packetId: string, timestamp: string)
    ensures PacketRoute(r1, packetId, timestamp) == PacketRoute(r2, packetId, timestamp) <==> r1 == r2
  {
  }

  /** A request body without `ttl` gives a packet whose ttl is 60. */
  lemma PacketRouteDefaultTtl(senderId: string, senderName: string, senderAccount: string,
                              receiverName: string, receiverAccount: string, amount: int,
                              packetId: string, timestamp: string)
    ensures PacketRoute(PaymentReq(senderId, senderName, senderAccount, receiverName, receiverAccount, amount),
                        packetId, timestamp)["ttl"] == JInt(60)
  {
  }

  /** What the route returns is a packet `encrypt_packet` can seal: it never misses `timestamp` or `packet_id`. */
  lemma PacketRouteSeals(p: Primitives, c: Codec, bankKey: RsaKey, req: PaymentReq,
                         packetId: string, timestamp: string, urandom: bytes, oaepSeed: bytes)
    requires |urandom| >= AesKeySize + GcmNonceSize
    ensures EncryptPacket(p, c, bankKey, PacketRoute(req, packetId, timestamp), urandom, oaepSeed).Ok?
  {
  }

  // ---------------------------------------------------------------- confirm

  /** The library functions and randomness `confirm_payment` uses. */
  datatype Services = Services(p: Primitives, c: Codec, pyStr: Json -> string)

  /** `uuid4()`, the clock, `RSA.generate`, the `os.urandom` stream and the OAEP seed of one call. */
  datatype Draws = Draws(packetId: string, timestamp: string, generated: PrivateKey, urandom: bytes, oaepSeed: bytes)

  /** The packet to seal and the name to report, or the answer that ends the call before any key is touched. */
  datatype Plan = Refused(response: Response) | Build(packet: map<string, Json>, receiverName: Json)

  /** From the user lookup to `create_packet` in `confirm_payment`. */
  function ConfirmPlan(s: Services, doc: Json, userId: string, receiverName: string, amount: int,
                       d: Draws): (plan: Plan)
    ensures plan.Build? ==> "timestamp" in plan.packet && "packet_id" in plan.packet
  {
    match GetUser(doc, userId)
    case Err(_) => Refused(HttpError(BadRequest, ConfirmationFailed))
    case Ok(user) =>
      if user.None? || !Truthy(user.value) then Refused(HttpError(BadRequest, UnknownUser))
      else
        match ListContacts(doc, userId)
        case Err(_) => Refused(HttpError(BadRequest, ConfirmationFailed))
        case Ok(contacts) =>
          match ContactItems(contacts)
          case None => Refused(HttpError(BadRequest, ConfirmationFailed))
          case Some(items) =>
            match FirstContact(items, NameEquals, Lower(receiverName))
            case Raised => Refused(HttpError(BadRequest, ConfirmationFailed))
            case NotFound => Refused(Failure(NotInContacts(receiverName)))
            case Found(contact) =>
              if contact == map[] then Refused(Failure(NotInContacts(receiverName)))
              else if "id" !in contact || !user.value.JObject? || "name" !in contact then
                Refused(HttpError(BadRequest, ConfirmationFailed))
              else
                var senderName := if "name" in user.value.fields then user.value.fields["name"] else JString(userId);
                var packet := CreatePacket(d.packetId, d.timestamp, JString(userId), senderName,
                                           JString("ACC-" + userId), contact["name"],
                                           JString(Account(s.pyStr, contact["id"])), JInt(amount));
                Build(packet, contact["name"])
  }

  /** The answer of `confirm_payment` and the key files after it. */
  datatype Confirmed = Confirmed(response: Response, keys: KeyFiles)

  /**
   * `confirm_payment`: after the checks and the plan, `encrypt_packet` loads the
   * public key (provisioning the key files if needed) and `send_to_mesh` loads
   * the private key and opens the envelope.
   */
  function Confirm(s: Services, keys: KeyFiles, doc: Json, userId: string, checks: VoiceChecks,
                   receiverName: string, amount: int, d: Draws): Confirmed
    requires |d.urandom| >= AesKeySize + GcmNonceSize
  {
    if !checks.enrolled then Confirmed(Failure(NoEnrolledVoice), keys)
    else if !checks.verified then Confirmed(Failure(ConfirmVoiceFailed), keys)
    else if !checks.live then Confirmed(Failure(ConfirmLivenessFailed), keys)
    else
      match ConfirmPlan(s, doc, userId, receiverName, amount, d)
      case Refused(resp) => Confirmed(resp, keys)
      case Build(packet, shown) =>
        var provisioned := EnsureKeys(s.p, keys, d.generated);
        match ImportKey(provisioned.publicPem.value)
        case Err(_) => Confirmed(HttpError(BadRequest, ConfirmationFailed), provisioned)
        case Ok(pub) =>
          var env := EncryptPacket(s.p, s.c, pub, packet, d.urandom, d.oaepSeed).value;
          var priv := ImportKey(provisioned.privatePem.value);
          if !SendToMesh(s.p, s.c, priv, env) then Confirmed(Failure(ForwardFailed), provisioned)
          else Confirmed(Success(PaymentInfo(shown, amount, Currency), None), provisioned)
  }

  /** The part of `confirm_payment` from the user lookup to `create_packet`; reads the users file. */
  method PlanPayment(s: Services, users: UserStore.Store, userId: string, receiverName: string, amount: int,
                     d: Draws) returns (plan: Plan)
    ensures plan == ConfirmPlan(s, users.Users(), userId, receiverName, amount, d)
  {
    var doc := users.Users();
    var user := GetUser(doc, userId);
    if user.Err? {
      return Refused(HttpError(BadRequest, ConfirmationFailed));
    }
    if user.value.None? || !Truthy(user.value.value) {
      return Refused(HttpError(BadRequest, UnknownUser));
    }
    var contacts := ListContacts(doc, userId);
    if contacts.Err? || ContactItems(contacts.value).None? {
      return Refused(HttpError(BadRequest, ConfirmationFailed));
    }
    var matched := FindContact(ContactItems(contacts.value).value, NameEquals, Lower(receiverName));
    if matched.Raised? {
      return Refused(HttpError(BadRequest, ConfirmationFailed));
    }
    if matched.NotFound? || matched.contact == map[] {
      return Refused(Failure(NotInContacts(receiverName)));
    }
    var contact := matched.contact;
    if "id" !in contact || !user.value.value.JObject? || "name" !in contact {
      return Refused(HttpError(BadRequest, ConfirmationFailed));
    }
    var senderAccount := "ACC-" + userId;
    var receiverAccount := Account(s.pyStr, contact["id"]);
    var senderName := if "name" in user.value.value.fields then user.value.value.fields["name"] else JString(userId);
    var packet := CreatePacket(d.packetId, d.timestamp, JString(userId), senderName, JString(senderAccount),
                               contact["name"], JString(receiverAccount), JInt(amount));
    return Build(packet, contact["name"]);
  }

  /** `confirm_payment`, against the bank's key files and the users file. */
  method ConfirmPayment(s: Services, keys: BankKeyStore, users: UserStore.Store, userId: string,
                        checks: VoiceChecks, receiverName: string, amount: int, d: Draws)
    returns (resp: Response)
    requires |d.urandom| >= AesKeySize + GcmNonceSize
    modifies keys
    ensures Confirmed(resp, keys.Files()) == Confirm(s, old(keys.Files()), users.Users(), userId, checks, receiverName, amount, d)
  {
    if !checks.enrolled {
      return Failure(NoEnrolledVoice);
    }
    if !checks.verified {
      return Failure(ConfirmVoiceFailed);
    }
    if !checks.live {
      return Failure(ConfirmLivenessFailed);
    }
    var plan := PlanPayment(s, users, userId, receiverName, amount, d);
    if plan.Refused? {
      return plan.response;
    }
    var packet, shown := plan.packet, plan.receiverName;
    var pub := keys.LoadBankPublicKey(s.p, d.generated);
    if pub.Err? {
      return HttpError(BadRequest, ConfirmationFailed);
    }
    var encrypted := EncryptPacket(s.p, s.c, pub.value, packet, d.urandom, d.oaepSeed).value;
    var priv := keys.LoadBankPrivateKey(s.p, d.generated);
    var forwarded := SendToMesh(s.p, s.c, priv, encrypted);
    if !forwarded {
      return Failure(ForwardFailed);
    }
    return Success(PaymentInfo(shown, amount, Currency), None);
  }

  /**
   * The checks run in order, voiceprint, verification, liveness; the first that
   * fails decides the answer, before the users file is read or a key touched.
   */
  lemma ConfirmChecksFirst(s: Services, keys: KeyFiles, doc1: Json, doc2: Json, userId: string,
                           checks: VoiceChecks, receiverName: string, amount: int, d: Draws)
    requires |d.urandom| >= AesKeySize + GcmNonceSize
    requires !checks.enrolled || !checks.verified || !checks.live
    ensures Confirm(s, keys, doc1, userId, checks, receiverName, amount, d)
         == Confirm(s, keys, doc2, userId, checks, receiverName, amount, d)
    ensures Confirm(s, keys, doc1, userId, checks, receiverName, amount, d)
         == Confirmed(Failure(if !checks.enrolled then NoEnrolledVoice
                              else if !checks.verified then ConfirmVoiceFailed
                              else ConfirmLivenessFailed), keys)
  {
  }

  /**
   * The packet `confirm` seals for the first contact whose name equals the
   * receiver's, ignoring case: the sender is the user, under the user's stored
   * name (the id when there is none), the accounts are `ACC-` followed by the
   * two ids, and the amount is the confirmed one.
   */
  lemma ConfirmPacketFields(s: Services, doc: Json, userId: string, receiverName: string, amount: int,
                            d: Draws, items: seq<Json>, i: int)
    requires doc.JObject? && userId in doc.fields && doc.fields[userId].JObject? && doc.fields[userId].fields != map[]
    requires ListContacts(doc, userId) == Ok(JArray(items))
    requires 0 <= i < |items| && PassedOver(items, NameEquals, Lower(receiverName), i)
    requires ContactName(items[i]).Some? && Lower(ContactName(items[i]).value) == Lower(receiverName)
    requires "id" in items[i].fields && "name" in items[i].fields
    ensures var plan := ConfirmPlan(s, doc, userId, receiverName, amount, d);
      var user := doc.fields[userId].fields;
      && plan.Build?
      && plan.receiverName == items[i].fields["name"]
      && plan.packet["sender_id"] == JString(userId)
      && plan.packet["sender_name"] == (if "name" in user then user["name"] else JString(userId))
      && plan.packet["sender_account"] == JString("ACC-" + userId)
      && plan.packet["receiver_name"] == items[i].fields["name"]
      && plan.packet["receiver_account"] == JString(Account(s.pyStr, items[i].fields["id"]))
      && plan.packet["amount"] == JInt(amount)
      && plan.packet["ttl"] == JInt(DefaultTtl)
  {
    FirstContactIsFirst(items, NameEquals, Lower(receiverName), i);
  }

  /** `confirm` reports success only when `send_to_mesh` opened the envelope it sealed. */
  lemma ConfirmSuccessMeansForwarded(s: Services, keys: KeyFiles, doc: Json, userId: string, checks: VoiceChecks,
                                     receiverName: string, amount: int, d: Draws)
    requires |d.urandom| >= AesKeySize + GcmNonceSize
    requires Confirm(s, keys, doc, userId, checks, receiverName, amount, d).response.Success?
    ensures var plan := ConfirmPlan(s, doc, userId, receiverName, amount, d);
      var provisioned := EnsureKeys(s.p, keys, d.generated);
      && plan.Build?
      && ImportKey(provisioned.publicPem.value).Ok?
      && (var env := EncryptPacket(s.p, s.c, ImportKey(provisioned.publicPem.value).value, plan.packet,
                                   d.urandom, d.oaepSeed).value;
          SendToMesh(s.p, s.c, ImportKey(provisioned.privatePem.value), env))
      && Confirm(s, keys, doc, userId, checks, receiverName, amount, d).response.info
         == PaymentInfo(plan.receiverName, amount, Currency)
  {
  }

  /**
   * End to end: when the key files are absent or hold a matching pair, a
   * confirmed payment the plan accepts is sealed, opened by the bank, and
   * reported as a success; the key files end provisioned.
   */
  lemma ConfirmDelivers(s: Services, keys: KeyFiles, doc: Json, userId: string, checks: VoiceChecks,
                        receiverName: string, amount: int, d: Draws)
    requires LawfulPrimitives(s.p) && LawfulCodec(s.c)
    requires !Provisioned(keys) || Paired(s.p, keys)
    requires |d.urandom| >= AesKeySize + GcmNonceSize
    requires checks.enrolled && checks.verified && checks.live
    requires ConfirmPlan(s, doc, userId, receiverName, amount, d).Build?
    ensures var r := Confirm(s, keys, doc, userId, checks, receiverName, amount, d);
      && r.response == Success(PaymentInfo(ConfirmPlan(s, doc, userId, receiverName, amount, d).receiverName,
                                           amount, Currency), None)
      && r.keys == EnsureKeys(s.p, keys, d.generated)
      && Provisioned(r.keys)
  {
    var plan := ConfirmPlan(s, doc, userId, receiverName, amount, d);
    var provisioned := EnsureKeys(s.p, keys, d.generated);
    LoadedKeysMatch(s.p, keys, d.generated);
    var k :| HoldsPair(s.p, provisioned, k)
      && ImportKey(provisioned.privatePem.value) == Ok(PrivateRsa(k))
      && PublicPart(s.p, ImportKey(provisioned.publicPem.value).value) == s.p.publicOf(k);
    var pub := ImportKey(provisioned.publicPem.value).value;
    var env := EncryptPacket(s.p, s.c, pub, plan.packet, d.urandom, d.oaepSeed).value;
    OpenSealedEnvelope(s.p, s.c, k, plan.packet, env, d.urandom[..AesKeySize],
                       d.urandom[AesKeySize..AesKeySize + GcmNonceSize], d.oaepSeed);
  }
}
