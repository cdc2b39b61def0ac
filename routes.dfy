/**
 * Which endpoint call a request is. `Operation` names one public method of
 * the client together with its arguments; `Parse` reads a request back into
 * the call that built it, independently of how the builders are written.
 */
module Routes {
  import opened Wrappers
  import opened Requests
  import Decimal

  datatype Operation =
    // instance
    | GenerateQrCode
    | GenerateQrCodeBase64
    | RestartInstance
    | Disconnect
    | Status
    | RestoreSession
    // messages
    | SendText(phone: string, message: string)
    | SendContact(phone: string, contactName: string, contactPhone: string, contactBusinessDescription: string)
    | SendImageFromUrl(phone: string, imageUrl: string)
    | SendAudioFromUrl(phone: string, audioUrl: string)
    | SendVideoFromUrl(phone: string, videoUrl: string)
    | SendDocumentFromUrl(phone: string, documentUrl: string, extension: string)
    | SendLink(phone: string, message: string, imageUrl: string, linkUrl: string, title: string, linkDescription: string)
    | ReadMessage(phone: string, messageId: string)
    | DeleteMessage(phone: string, messageId: string, owner: bool)
    // status
    | SendTextStatus(message: string)
    | SendImageStatus(imageB64: string)
    // chats
    | GetChats
    | GetChatByPhone(phone: string)
    | GetChatMessages(chatPhone: string)
    // contacts
    | GetContacts(page: int, pageSize: int)
    | GetContactsByPhone(phone: string)
    | GetProfilePictureByNumber(phone: string)
    | NumberExistsOnWhatsapp(phone: string)
    // groups (updateGroupName's `groupId` is an array in the source)
    | CreateGroup(groupName: string, phones: seq<string>)
    | UpdateGroupName(groupName: string, groupIdArray: seq<string>)
    | AddAdmin(groupId: string, phones: seq<string>)
    | RemoveAdmin(groupId: string, phones: seq<string>)
    | AddParticipant(groupId: string, phones: seq<string>)
    | RemoveParticipant(groupId: string, phones: seq<string>)
    | LeaveGroup(groupId: string)
    | GetGroupMetadata(groupPhoneId: string)
    // queue
    | GetQueue
    | RemoveAllMessagesFromQueue
    | RemoveMessageByZapId(zapId: string)

  predicate HasPrefix(s: string, p: string) { |p| <= |s| && forall i :: 0 <= i < |p| ==> s[i] == p[i] }

  predicate HasSuffix(s: string, p: string) { |p| <= |s| && s[|s| - |p|..] == p }

  /** The index of the first `c` in `s`, or `|s|` when there is none. */
  function IndexOf(s: string, c: char): (i: nat)
    ensures i <= |s|
  {
    if s == [] then 0 else if s[0] == c then 0 else 1 + IndexOf(s[1..], c)
  }

  /** The body has exactly the keys `keys`, each holding a string. */
  predicate StrFields(body: Body, keys: set<string>)
  {
    body.Keys == keys && forall k :: k in keys ==> body[k].Str?
  }

  /** The body has exactly the keys `groupId` (a string) and `phones` (a list). */
  predicate GroupFields(body: Body)
  {
    body.Keys == {"phones", "groupId"} && body["phones"].List? && body["groupId"].Str?
  }

  /** The call a request stands for, if the endpoint surface builds it. */
  function Parse(r: Request): Option<Operation>
  {
    if r.verb == "GET" then ParseGet(r.path, r.body)
    else if r.verb == "POST" then ParsePost(r.path, r.body)
    else if r.verb == "DELETE" then ParseDelete(r.path, r.body)
    else None
  }

  /** GET requests carry no body; the first character of the path picks the family of routes. */
  function ParseGet(path: string, body: Body): Option<Operation>
  {
    if body != map[] || path == [] then None
    else match path[0]
      case 'q' =>
        if path == "qr-code" then Some(GenerateQrCode)
        else if path == "qr-code/image" then Some(GenerateQrCodeBase64)
        else if path == "queue" then Some(GetQueue)
        else None
      case 'd' => if path == "disconnect" then Some(Disconnect) else None
      case 's' => if path == "status" then Some(Status) else None
      case 'r' => if path == "restore-session" then Some(RestoreSession) else None
      case 'c' =>
        if path == "chats" then Some(GetChats)
        else if HasPrefix(path, "chats/") then Some(GetChatByPhone(path[6..]))
        else if HasPrefix(path, "chat-messages/") then Some(GetChatMessages(path[14..]))
        else if HasPrefix(path, "contacts?page=") then ParseContactsQuery(path[14..])
        else if HasPrefix(path, "contacts/") then Some(GetContactsByPhone(path[9..]))
        else None
      case 'p' =>
        if HasPrefix(path, "profile-picture?phone=") then Some(GetProfilePictureByNumber(path[22..]))
        else if HasPrefix(path, "phone-exists/") then Some(NumberExistsOnWhatsapp(path[13..]))
        else None
      case 'g' => if HasPrefix(path, "group-metadata/") then Some(GetGroupMetadata(path[15..])) else None
      case _ => None
  }

  /** Reads `{page}&pageSize={pageSize}`, the query after `contacts?page=`. */
  function ParseContactsQuery(q: string): Option<Operation>
  {
    var i := IndexOf(q, '&');
    if HasPrefix(q[i..], "&pageSize=") then
      match (Decimal.ParseInt(q[..i]), Decimal.ParseInt(q[i + 10..]))
      case (Some(page), Some(pageSize)) => Some(GetContacts(page, pageSize))
      case _ => None
    else None
  }

  /** POST requests: the first character of the path picks the family, the body's keys the call. */
  function ParsePost(path: string, body: Body): Option<Operation>
  {
    if path == [] then None
    else match path[0]
      case 's' => ParseSend(path, body)
      case 'r' =>
        if path == "read-message" then
          if StrFields(body, {"phone", "messageId"}) then
            Some(ReadMessage(body["phone"].s, body["messageId"].s))
          else if body.Keys == {"phone", "messageId", "owner"} && body["phone"].Str? && body["messageId"].Str?
                  && body["owner"].Bool? then
            Some(DeleteMessage(body["phone"].s, body["messageId"].s, body["owner"].b))
          else None
        else if path == "remove-admin" then
          if GroupFields(body) then Some(RemoveAdmin(body["groupId"].s, body["phones"].items)) else None
        else if path == "remove-participant" then
          if GroupFields(body) then Some(RemoveParticipant(body["groupId"].s, body["phones"].items)) else None
        else None
      case 'c' =>
        if path == "create-group" && body.Keys == {"phones", "groupName"} && body["phones"].List?
           && body["groupName"].Str?
        then Some(CreateGroup(body["groupName"].s, body["phones"].items))
        else None
      case 'u' =>
        if path == "update-group-name" && body.Keys == {"groupName", "groupId"} && body["groupName"].Str?
           && body["groupId"].List?
        then Some(UpdateGroupName(body["groupName"].s, body["groupId"].items))
        else None
      case 'a' =>
        if path == "add-admin" then
          if GroupFields(body) then Some(AddAdmin(body["groupId"].s, body["phones"].items)) else None
        else if path == "add-participant" then
          if GroupFields(body) then Some(AddParticipant(body["groupId"].s, body["phones"].items)) else None
        else None
      case 'l' =>
        if path == "leave-group" && StrFields(body, {"groupId"}) then Some(LeaveGroup(body["groupId"].s)) else None
      case _ => None
  }

  /** The `send-…` routes of POST. */
  function ParseSend(path: string, body: Body): Option<Operation>
  {
    if path == "send-text" then
      if StrFields(body, {"phone", "message"})
      then Some(SendText(body["phone"].s, body["message"].s))
      else None
    else if path == "send-contact" then
      if StrFields(body, {"phone", "contactName", "contactPhone", "contactBusinessDescription"})
      then Some(SendContact(body["phone"].s, body["contactName"].s, body["contactPhone"].s,
                            body["contactBusinessDescription"].s))
      else None
    else if path == "send-image" then
      if StrFields(body, {"phone", "image"}) then Some(SendImageFromUrl(body["phone"].s, body["image"].s)) else None
    else if path == "send-audio" then
      if StrFields(body, {"phone", "audio"}) then Some(SendAudioFromUrl(body["phone"].s, body["audio"].s)) else None
    else if path == "send-video" then
      if StrFields(body, {"phone", "video"}) then Some(SendVideoFromUrl(body["phone"].s, body["video"].s)) else None
    else if path == "send-link" then ParseSendLink(body)
    else if path == "send-text-status" then
      if StrFields(body, {"message"}) then Some(SendTextStatus(body["message"].s))
      else if StrFields(body, {"image"}) then Some(SendImageStatus(body["image"].s))
      else None
    else if HasPrefix(path, "send-document/") then
      var extension := path[14..];
      if extension in AllowedExtensions && StrFields(body, {"phone", "document"})
      then Some(SendDocumentFromUrl(body["phone"].s, body["document"].s, extension))
      else None
    else None
  }

  /** The link's message field must end in a space and the link itself; the rest is the caller's text. */
  function ParseSendLink(body: Body): Option<Operation>
  {
    if StrFields(body, {"phone", "message", "image", "linkUrl", "title", "linkDescription"}) then
      var text := body["message"].s;
      var linkUrl := body["linkUrl"].s;
      if HasSuffix(text, " " + linkUrl) then
        Some(SendLink(body["phone"].s, text[..|text| - |linkUrl| - 1], body["image"].s, linkUrl,
                      body["title"].s, body["linkDescription"].s))
      else None
    else None
  }

  function ParseDelete(path: string, body: Body): Option<Operation>
  {
    if body != map[] then None
    else if path == "queue" then Some(RemoveAllMessagesFromQueue)
    else if HasPrefix(path, "queue/") then Some(RemoveMessageByZapId(path[6..]))
    else None
  }

  /** Only the verbs the endpoints use are ever decoded, and all of them are on the whitelist. */
  lemma ParsedVerbIsAllowed(r: Request)
    requires Parse(r).Some?
    ensures r.verb in AllowedHttpVerbs
  {
  }

  /** A `contacts?page=` request is read by its query alone. */
  lemma ParseContactsPath(q: string)
    ensures Parse(Request("GET", "contacts?page=" + q, map[])) == ParseContactsQuery(q)
  {
    var path := "contacts?page=" + q;
    assert path[0] == 'c' && path[1] == 'o' && path[14..] == q;
  }

  /** The query `getContacts` writes reads back as its two numbers. */
  lemma ParseContactsQueryOfDecimals(page: int, pageSize: int)
    ensures ParseContactsQuery(Decimal.IntToDecimal(page) + "&pageSize=" + Decimal.IntToDecimal(pageSize))
         == Some(GetContacts(page, pageSize))
  {
    var p, z := Decimal.IntToDecimal(page), Decimal.IntToDecimal(pageSize);
    var tail := "&pageSize=" + z;
    var q := p + tail;
    assert q == p + "&pageSize=" + z;
    Decimal.ParseIntOfIntToDecimal(page);
    Decimal.ParseIntOfIntToDecimal(pageSize);
    IndexOfAppend(p, tail, '&');
    assert q[..|p|] == p && q[|p|..] == tail;
    assert HasPrefix(tail, "&pageSize=");
    assert q[|p| + 10..] == z;
  }

  /** When `a` has no `c`, the first `c` of `a + b` is the first of `b`. */
  lemma {:induction false} IndexOfAppend(a: string, b: string, c: char)
    requires forall i :: 0 <= i < |a| ==> a[i] != c
    requires |b| > 0 && b[0] == c
    ensures IndexOf(a + b, c) == |a|
  {
    if a != [] {
      assert (a + b)[1..] == a[1..] + b;
      IndexOfAppend(a[1..], b, c);
    }
  }
}
