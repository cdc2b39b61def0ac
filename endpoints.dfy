/**
 * The endpoint surface of the client: one builder per public method, each
 * mapping its parameters to the (verb, path, body) request it hands to
 * `doRequest`. Every builder promises that `Routes.Parse` reads its own call
 * back from the request (for `GetContacts` the lemma `GetContactsReadsBack`
 * does), so each request fixes the call and all its arguments.
 */
module Endpoints {
  import opened Wrappers
  import opened Requests
  import Routes
  import Decimal

  // instance

  function GenerateQrCode(): (r: Request)
    ensures Routes.Parse(r) == Some(Routes.GenerateQrCode)
  {
    Request("GET", "qr-code", map[])
  }

  function GenerateQrCodeBase64(): (r: Request)
    ensures Routes.Parse(r) == Some(Routes.GenerateQrCodeBase64)
  {
    Request("GET", "qr-code/image", map[])
  }

  /** Issues the QR-code image request: the source uses that path for a restart too. */
  function RestartInstance(): (r: Request)
    ensures Routes.Parse(r) == Some(Routes.GenerateQrCodeBase64)
  {
    Request("GET", "qr-code/image", map[])
  }

  function Disconnect(): (r: Request)
    ensures Routes.Parse(r) == Some(Routes.Disconnect)
  {
    Request("GET", "disconnect", map[])
  }

  function Status(): (r: Request)
    ensures Routes.Parse(r) == Some(Routes.Status)
  {
    Request("GET", "status", map[])
  }

  function RestoreSession(): (r: Request)
    ensures Routes.Parse(r) == Some(Routes.RestoreSession)
  {
    Request("GET", "restore-session", map[])
  }

  // messages

  function SendText(phone: string, message: string): (r: Request)
    ensures Routes.Parse(r) == Some(Routes.SendText(phone, message))
  {
    Request("POST", "send-text", map["phone" := Str(phone), "message" := Str(message)])
  }

  function SendContact(phone: string, contactName: string, contactPhone: string,
                       contactBusinessDescription: string): (r: Request)
    ensures Routes.Parse(r) == Some(Routes.SendContact(phone, contactName, contactPhone, contactBusinessDescription))
  {
    Request("POST", "send-contact", map[
      "phone" := Str(phone),
      "contactName" := Str(contactName),
      "contactPhone" := Str(contactPhone),
      "contactBusinessDescription" := Str(contactBusinessDescription)])
  }

  function SendImageFromUrl(phone: string, imageUrl: string): (r: Request)
    ensures Routes.Parse(r) == Some(Routes.SendImageFromUrl(phone, imageUrl))
  {
    Request("POST", "send-image", map["phone" := Str(phone), "image" := Str(imageUrl)])
  }

  function SendAudioFromUrl(phone: string, audioUrl: string): (r: Request)
    ensures Routes.Parse(r) == Some(Routes.SendAudioFromUrl(phone, audioUrl))
  {
    Request("POST", "send-audio", map["phone" := Str(phone), "audio" := Str(audioUrl)])
  }

  function SendVideoFromUrl(phone: string, videoUrl: string): (r: Request)
    ensures Routes.Parse(r) == Some(Routes.SendVideoFromUrl(phone, videoUrl))
  {
    Request("POST", "send-video", map["phone" := Str(phone), "video" := Str(videoUrl)])
  }

  /**
   * Refuses an extension that is not on the whitelist, compared as is
   * (no case folding), before any request exists.
   */
  function SendDocumentFromUrl(phone: string, documentUrl: string, extension: string): (r: Result<Request, Error>)
    ensures r.Err? <==> extension !in AllowedExtensions
    ensures r.Err? ==> r.error == InvalidArgument(extension)
    ensures r.Ok? ==> r.value.path == "send-document/" + extension
    ensures r.Ok? ==> Routes.Parse(r.value) == Some(Routes.SendDocumentFromUrl(phone, documentUrl, extension))
  {
    if extension !in AllowedExtensions then Err(InvalidArgument(extension))
    else
      var path := "send-document/" + extension;
      assert path[0] == 's' && path[5] == 'd';
      Ok(Request("POST", path, map["phone" := Str(phone), "document" := Str(documentUrl)]))
  }

  /** The message sent is the caller's text, a space, and the link. */
  function SendLink(phone: string, message: string, imageUrl: string, linkUrl: string, title: string,
                    linkDescription: string): (r: Request)
    ensures Routes.Parse(r) == Some(Routes.SendLink(phone, message, imageUrl, linkUrl, title, linkDescription))
  {
    var text := message + " " + linkUrl;
    assert text[..|text| - |linkUrl| - 1] == message;

    Request("POST", "send-link", map[
      "phone" := Str(phone),
      "message" := Str(text),
      "image" := Str(imageUrl),
      "linkUrl" := Str(linkUrl),
      "title" := Str(title),
      "linkDescription" := Str(linkDescription)])
  }

  function ReadMessage(phone: string, messageId: string): (r: Request)
    ensures Routes.Parse(r) == Some(Routes.ReadMessage(phone, messageId))
  {
    Request("POST", "read-message", map["phone" := Str(phone), "messageId" := Str(messageId)])
  }

  /** Posts to `read-message`, as the source does; the `owner` flag tells the two apart. */
  function DeleteMessage(phone: string, messageId: string, owner: bool): (r: Request)
    ensures Routes.Parse(r) == Some(Routes.DeleteMessage(phone, messageId, owner))
  {
    Request("POST", "read-message", map["phone" := Str(phone), "messageId" := Str(messageId), "owner" := Bool(owner)])
  }

  // status

  function SendTextStatus(message: string): (r: Request)
    ensures Routes.Parse(r) == Some(Routes.SendTextStatus(message))
  {
    Request("POST", "send-text-status", map["message" := Str(message)])
  }

  /** Posts to `send-text-status`, as the source does; the `image` key tells it apart. */
  function SendImageStatus(imageB64: string): (r: Request)
    ensures Routes.Parse(r) == Some(Routes.SendImageStatus(imageB64))
  {
    Request("POST", "send-text-status", map["image" := Str(imageB64)])
  }

  // chats

  function GetChats(): (r: Request)
    ensures Routes.Parse(r) == Some(Routes.GetChats)
  {
    Request("GET", "chats", map[])
  }

  function GetChatByPhone(phone: string): (r: Request)
    ensures Routes.Parse(r) == Some(Routes.GetChatByPhone(phone))
  {
    var path := "chats/" + phone;
    assert path[0] == 'c';
    Request("GET", path, map[])
  }

  function GetChatMessages(chatPhone: string): (r: Request)
    ensures Routes.Parse(r) == Some(Routes.GetChatMessages(chatPhone))
  {
    var path := "chat-messages/" + chatPhone;
    assert path[0] == 'c' && path[4] == '-';
    Request("GET", path, map[])
  }

  // contacts

  /** Both numbers are written in decimal into the query string. */
  function GetContacts(page: int := 1, pageSize: int := 15): (r: Request)
    ensures r.verb == "GET" && r.body == map[]
    ensures Routes.HasPrefix(r.path, "contacts?page=")
  {
    Request("GET", "contacts?page=" + (Decimal.IntToDecimal(page) + "&pageSize=" + Decimal.IntToDecimal(pageSize)), map[])
  }

  /** The query `getContacts` writes reads back as its two numbers, whatever their sign. */
  lemma GetContactsReadsBack(page: int, pageSize: int)
    ensures Routes.Parse(GetContacts(page, pageSize)) == Some(Routes.GetContacts(page, pageSize))
  {
    var q := Decimal.IntToDecimal(page) + "&pageSize=" + Decimal.IntToDecimal(pageSize);
    Routes.ParseContactsQueryOfDecimals(page, pageSize);
    Routes.ParseContactsPath(q);
  }

  function GetContactsByPhone(phone: string): (r: Request)
    ensures Routes.Parse(r) == Some(Routes.GetContactsByPhone(phone))
  {
    var path := "contacts/" + phone;
    assert path[0] == 'c' && path[1] == 'o' && path[8] == '/';
    Request("GET", path, map[])
  }

  function GetProfilePictureByNumber(phone: string): (r: Request)
    ensures Routes.Parse(r) == Some(Routes.GetProfilePictureByNumber(phone))
  {
    var path := "profile-picture?phone=" + phone;
    assert path[0] == 'p';
    Request("GET", path, map[])
  }

  function NumberExistsOnWhatsapp(phone: string): (r: Request)
    ensures Routes.Parse(r) == Some(Routes.NumberExistsOnWhatsapp(phone))
  {
    var path := "phone-exists/" + phone;
    assert path[0] == 'p' && path[1] == 'h';
    Request("GET", path, map[])
  }

  // groups

  function CreateGroup(groupName: string, phones: seq<string> := []): (r: Request)
    ensures Routes.Parse(r) == Some(Routes.CreateGroup(groupName, phones))
  {
    Request("POST", "create-group", map["phones" := List(phones), "groupName" := Str(groupName)])
  }

  /** `groupId` is sent as a list, as the source's array parameter has it. */
  function UpdateGroupName(groupName: string, groupId: seq<string>): (r: Request)
    ensures Routes.Parse(r) == Some(Routes.UpdateGroupName(groupName, groupId))
  {
    Request("POST", "update-group-name", map["groupName" := Str(groupName), "groupId" := List(groupId)])
  }

  function AddAdmin(groupId: string, phones: seq<string>): (r: Request)
    ensures Routes.Parse(r) == Some(Routes.AddAdmin(groupId, phones))
  {
    Request("POST", "add-admin", map["phones" := List(phones), "groupId" := Str(groupId)])
  }

  function RemoveAdmin(groupId: string, phones: seq<string>): (r: Request)
    ensures Routes.Parse(r) == Some(Routes.RemoveAdmin(groupId, phones))
  {
    Request("POST", "remove-admin", map["phones" := List(phones), "groupId" := Str(groupId)])
  }

  function AddParticipant(groupId: string, phones: seq<string>): (r: Request)
    ensures Routes.Parse(r) == Some(Routes.AddParticipant(groupId, phones))
  {
    Request("POST", "add-participant", map["phones" := List(phones), "groupId" := Str(groupId)])
  }

  function RemoveParticipant(groupId: string, phones: seq<string>): (r: Request)
    ensures Routes.Parse(r) == Some(Routes.RemoveParticipant(groupId, phones))
  {
    Request("POST", "remove-participant", map["phones" := List(phones), "groupId" := Str(groupId)])
  }

  function LeaveGroup(groupId: string): (r: Request)
    ensures Routes.Parse(r) == Some(Routes.LeaveGroup(groupId))
  {
    Request("POST", "leave-group", map["groupId" := Str(groupId)])
  }

  function GetGroupMetadata(groupPhoneId: string): (r: Request)
    ensures Routes.Parse(r) == Some(Routes.GetGroupMetadata(groupPhoneId))
  {
    var path := "group-metadata/" + groupPhoneId;
    assert path[0] == 'g';
    Request("GET", path, map[])
  }

  // queue

  function GetQueue(): (r: Request)
    ensures Routes.Parse(r) == Some(Routes.GetQueue)
  {
    Request("GET", "queue", map[])
  }

  function RemoveAllMessagesFromQueue(): (r: Request)
    ensures Routes.Parse(r) == Some(Routes.RemoveAllMessagesFromQueue)
  {
    Request("DELETE", "queue", map[])
  }

  function RemoveMessageByZapId(zapId: string): (r: Request)
    ensures Routes.Parse(r) == Some(Routes.RemoveMessageByZapId(zapId))
  {
    Request("DELETE", "queue/" + zapId, map[])
  }

  // the surface as a whole

  /** The call `restartInstance` is read back as: the QR-code image request it issues. */
  function Issued(op: Routes.Operation): Routes.Operation
  {
    if op.RestartInstance? then Routes.GenerateQrCodeBase64 else op
  }

  /**
   * The request the public method named by `op` hands to `doRequest`, or the
   * error it throws first: only a document extension off the whitelist fails.
   */
  function Build(op: Routes.Operation): (r: Result<Request, Error>)
    ensures r.Err? <==> op.SendDocumentFromUrl? && op.extension !in AllowedExtensions
    ensures r.Err? ==> r.error == InvalidArgument(op.extension)
  {
    match op
    case GenerateQrCode => Ok(GenerateQrCode())
    case GenerateQrCodeBase64 => Ok(GenerateQrCodeBase64())
    case RestartInstance => Ok(RestartInstance())
    case Disconnect => Ok(Disconnect())
    case Status => Ok(Status())
    case RestoreSession => Ok(RestoreSession())
    case SendText(phone, message) => Ok(SendText(phone, message))
    case SendContact(phone, contactName, contactPhone, contactBusinessDescription) =>
      Ok(SendContact(phone, contactName, contactPhone, contactBusinessDescription))
    case SendImageFromUrl(phone, imageUrl) => Ok(SendImageFromUrl(phone, imageUrl))
    case SendAudioFromUrl(phone, audioUrl) => Ok(SendAudioFromUrl(phone, audioUrl))
    case SendVideoFromUrl(phone, videoUrl) => Ok(SendVideoFromUrl(phone, videoUrl))
    case SendDocumentFromUrl(phone, documentUrl, extension) => SendDocumentFromUrl(phone, documentUrl, extension)
    case SendLink(phone, message, imageUrl, linkUrl, title, linkDescription) =>
      Ok(SendLink(phone, message, imageUrl, linkUrl, title, linkDescription))
    case ReadMessage(phone, messageId) => Ok(ReadMessage(phone, messageId))
    case DeleteMessage(phone, messageId, owner) => Ok(DeleteMessage(phone, messageId, owner))
    case SendTextStatus(message) => Ok(SendTextStatus(message))
    case SendImageStatus(imageB64) => Ok(SendImageStatus(imageB64))
    case GetChats => Ok(GetChats())
    case GetChatByPhone(phone) => Ok(GetChatByPhone(phone))
    case GetChatMessages(chatPhone) => Ok(GetChatMessages(chatPhone))
    case GetContacts(page, pageSize) => Ok(GetContacts(page, pageSize))
    case GetContactsByPhone(phone) => Ok(GetContactsByPhone(phone))
    case GetProfilePictureByNumber(phone) => Ok(GetProfilePictureByNumber(phone))
    case NumberExistsOnWhatsapp(phone) => Ok(NumberExistsOnWhatsapp(phone))
    case CreateGroup(groupName, phones) => Ok(CreateGroup(groupName, phones))
    case UpdateGroupName(groupName, groupIdArray) => Ok(UpdateGroupName(groupName, groupIdArray))
    case AddAdmin(groupId, phones) => Ok(AddAdmin(groupId, phones))
    case RemoveAdmin(groupId, phones) => Ok(RemoveAdmin(groupId, phones))
    case AddParticipant(groupId, phones) => Ok(AddParticipant(groupId, phones))
    case RemoveParticipant(groupId, phones) => Ok(RemoveParticipant(groupId, phones))
    case LeaveGroup(groupId) => Ok(LeaveGroup(groupId))
    case GetGroupMetadata(groupPhoneId) => Ok(GetGroupMetadata(groupPhoneId))
    case GetQueue => Ok(GetQueue())
    case RemoveAllMessagesFromQueue => Ok(RemoveAllMessagesFromQueue())
    case RemoveMessageByZapId(zapId) => Ok(RemoveMessageByZapId(zapId))
  }

  /** Every request built reads back as the call that built it. */
  lemma BuildReadsBack(op: Routes.Operation)
    requires Build(op).Ok?
    ensures Routes.Parse(Build(op).value) == Some(Issued(op))
  {
    if op.GetContacts? {
      GetContactsReadsBack(op.page, op.pageSize);
    }
  }

  /** Every built request uses a verb `doRequest` lets through unchanged, so no endpoint raises the verb error. */
  lemma BuiltVerbIsAccepted(op: Routes.Operation)
    requires Build(op).Ok?
    ensures CheckVerb(Build(op).value.verb) == Ok(Build(op).value.verb)
  {
    BuildReadsBack(op);
    Routes.ParsedVerbIsAllowed(Build(op).value);
    CheckVerbOfAllowed(Build(op).value.verb);
  }

  /** Two calls issue the same request only if they are the same call, or are restart and the QR-code image. */
  lemma BuildInjective(a: Routes.Operation, b: Routes.Operation)
    requires Build(a).Ok? && Build(a) == Build(b)
    ensures a == b || {a, b} == {Routes.RestartInstance, Routes.GenerateQrCodeBase64}
  {
    BuildReadsBack(a);
    BuildReadsBack(b);
  }

  /** `restartInstance` issues exactly the request of `generateQrCodeBase64`. */
  lemma RestartIssuesQrCodeImage()
    ensures Build(Routes.RestartInstance) == Build(Routes.GenerateQrCodeBase64)
    ensures RestartInstance().path == "qr-code/image"
  {
  }

  /** `getContacts()` with its defaults asks for page 1 of 15 contacts. */
  lemma GetContactsDefaults()
    ensures GetContacts() == Request("GET", "contacts?page=1&pageSize=15", map[])
  {
    Decimal.IntToDecimalExamples();
    var r := GetContacts();
    assert r.path == "contacts?page=" + ("1" + "&pageSize=" + "15");
  }

  /** A negative page number is written with its minus sign, as PHP interpolates it. */
  lemma GetContactsNegativePage()
    ensures GetContacts(-2, 100).path == "contacts?page=-2&pageSize=100"
  {
    Decimal.IntToDecimalExamples();
    var r := GetContacts(-2, 100);
    assert r.path == "contacts?page=" + ("-2" + "&pageSize=" + "100");
  }

  lemma SendTextExample()
    ensures SendText("5511999999999", "hi")
         == Request("POST", "send-text", map["phone" := Str("5511999999999"), "message" := Str("hi")])
  {
  }

  lemma SendLinkExample()
    ensures SendLink("5511999999999", "Check this", "http://x.test/i.png", "http://x.test", "T", "D").body["message"]
         == Str("Check this http://x.test")
  {
  }

  lemma RemoveMessageByZapIdExample()
    ensures RemoveMessageByZapId("abc123") == Request("DELETE", "queue/abc123", map[])
  {
  }

  /** The extension check is case-sensitive: "PDF" is refused, "pdf" accepted. */
  lemma SendDocumentExtensionCase()
    ensures SendDocumentFromUrl("5511999999999", "http://x.test/a.pdf", "PDF") == Err(InvalidArgument("PDF"))
    ensures SendDocumentFromUrl("5511999999999", "http://x.test/a.pdf", "pdf").Ok?
  {
  }
}
