# ZApi client: request construction and dispatch

This project models the `ZApi` class of the PHP package `Tiagofv\ZApi`. The class is a thin client for the Z-API WhatsApp gateway. Each public method turns its arguments into one request: an HTTP verb, a path relative to the instance's base URL, and a body. It passes that request to `doRequest`. `doRequest` upper-cases the verb, refuses any verb that is not GET, POST, PUT, PATCH or DELETE by throwing `InvalidArgumentException`, and only then sends the request.

Modules:

- **`Wrappers`**: `Option` and `Result`.
- **`Ascii`**: PHP's `strtoupper` on ASCII letters, and what "the same word in another casing" means (`CaseVariant`).
- **`Decimal`**: base-10 writing of integers, as PHP's string interpolation does it, with a reader that inverts it.
- **`Requests`**:
  - the values a body holds;
  - `Request` and the `InvalidArgument` error;
  - the two whitelists;
  - the base URL;
  - `CheckVerb`, the check at the head of `doRequest`.
- **`Routes`**:
  - `Operation`, one constructor per public method with that method's arguments;
  - `Parse`, an independent decoder that reads the call back from a request. It looks at the verb, then the path (first character, then the literal route or prefix), then the body's key set.
- **`Endpoints`**:
  - one builder per public method;
  - `Build`, which dispatches over `Operation`;
  - the lemmas that connect the builders to `Parse`.

  Every builder except `GetContacts` promises in its own contract that `Parse` reads back exactly its own call and all its arguments; for `GetContacts` the lemma `GetContactsReadsBack` states the same. So a request fixes the call that built it, and two calls that differ in any argument never issue the same request. `restartInstance` is the one exception (below).
- **`Client`**: class `ZApi`.
  - Its fields `instanceId`, `tokenId` and `baseUrl` are set once by the constructor.
  - A log `sent` stands for the requests handed to the transport.
  - `DoRequest` appends to the log only when the verb check passes.
  - `Invoke` stands for any public endpoint method: it builds the request and hands it to `DoRequest`.

The source's apparent defects are kept as written:

- `restartInstance` issues `GET qr-code/image`, the same request as `generateQrCodeBase64`.
- `deleteMessage` posts to `read-message`. It differs from `readMessage` only by the extra `owner` key.
- `sendImageStatus` posts to `send-text-status` with an `image` key.
- `updateGroupName` sends `groupId` as a list.

These look like copy-paste slips in the PHP; the model keeps them as written.

## Model

| member | source | states |
|---|---|---|
| Ascii.ToUpper | src/ZApi.php:65 | the upper-cased verb has the same length and no lower-case letter left |
| Ascii.ToUpperKeeps | src/ZApi.php:65 | only a-z change, each to the letter 32 code points below; every other character is kept |
| Ascii.ToUpperOfNoLower | src/ZApi.php:65 | a string with no lower-case letter is left unchanged |
| Ascii.ToUpperIdempotent | src/ZApi.php:65 | upper-casing twice is upper-casing once |
| Ascii.ToUpperIsCaseInsensitive | src/ZApi.php:65-67 | for a target with no lower-case letter, `strtoupper(s)` equals it exactly when `s` is that word in some casing (both directions) |
| Decimal.NatToDecimal | src/ZApi.php:355 | a natural number is written as a canonical digit string (non-empty, digits only, no leading zero) |
| Decimal.IntToDecimal | src/ZApi.php:355 | an integer is written as a non-empty string of digits with at most a leading minus sign |
| Decimal.DigitsValueOfNatToDecimal | src/ZApi.php:355 | the digits written for `n` denote `n` |
| Decimal.NatToDecimalOfDigitsValue | src/ZApi.php:355 | every canonical digit string is the one written for the number it denotes |
| Decimal.ParseIntOfIntToDecimal | src/ZApi.php:355 | reading back the written form of any integer, negative ones included, gives that integer |
| Decimal.IntToDecimalOfParseInt | src/ZApi.php:355 | any string the reader accepts is exactly the written form of the integer it yields |
| Decimal.IntToDecimalInjective | src/ZApi.php:355 | different integers are written differently, so different page numbers give different paths |
| Decimal.IntToDecimalExamples | src/ZApi.php:353-355 | 1, 15, -2 and 100 are written "1", "15", "-2", "100" |
| Requests.CheckVerb | src/ZApi.php:63-72 | the verb passes exactly when it is GET, POST, PUT, PATCH or DELETE in some casing; the verb sent is the whitelisted upper-case one; otherwise the error carries the upper-cased verb |
| Requests.AllowedVerbsHaveNoLower | src/ZApi.php:27 | every whitelisted verb is already upper case |
| Requests.CheckVerbOfAllowed | src/ZApi.php:65-67 | a verb taken verbatim from the whitelist passes unchanged |
| Requests.CheckVerbAnyCasing | src/ZApi.php:65-67 | any casing of a whitelisted verb passes and is sent as the whitelisted spelling |
| Requests.CheckVerbExamples | src/ZApi.php:65-72 | "get" becomes GET, "Patch" becomes PATCH, "fetch" fails with the supplied value FETCH |
| Requests.BaseUrl | src/ZApi.php:43 | the base URL is the API root, then the instance id, then `/token/`, the token id and a closing `/`, and nothing more; `BaseUrlInjective` is its partner |
| Requests.BaseUrlExample | src/ZApi.php:39-44 | "ABC"/"XYZ" gives `https://api.z-api.io/instances/ABC/token/XYZ/` |
| Requests.BaseUrlInjective | src/ZApi.php:43 | when the instance id holds no '/', the base URL determines both credentials |
| Requests.BaseUrlAmbiguous | src/ZApi.php:43 | without that restriction, two different credential pairs give the same base URL |
| Routes.ParsedVerbIsAllowed | src/ZApi.php:27 | every request the decoder accepts uses a verb on the whitelist |
| Routes.ParseContactsPath | src/ZApi.php:355 | a `contacts?page=` path is decoded from its query string alone |
| Routes.ParseContactsQueryOfDecimals | src/ZApi.php:355 | the query `{page}&pageSize={pageSize}` decodes to the two numbers it was written from |
| Endpoints.GenerateQrCode | src/ZApi.php:84-87 | the request decodes as `generateQrCode` (GET `qr-code`, no body) |
| Endpoints.GenerateQrCodeBase64 | src/ZApi.php:89-92 | the request decodes as `generateQrCodeBase64` (GET `qr-code/image`, no body) |
| Endpoints.RestartInstance | src/ZApi.php:97-100 | the request decodes as `generateQrCodeBase64`: restart issues the QR-code image request |
| Endpoints.Disconnect | src/ZApi.php:105-108 | the request decodes as `disconnect` |
| Endpoints.Status | src/ZApi.php:113-116 | the request decodes as `status` |
| Endpoints.RestoreSession | src/ZApi.php:121-124 | the request decodes as `restoreSession` |
| Endpoints.SendText | src/ZApi.php:137-143 | the request decodes as `sendText` with the same phone and message (POST `send-text`, exactly the keys phone and message) |
| Endpoints.SendContact | src/ZApi.php:153-161 | the request decodes as `sendContact` with all four arguments under their own keys |
| Endpoints.SendImageFromUrl | src/ZApi.php:169-175 | the request decodes as `sendImageFromUrl`; the URL travels under the key `image` |
| Endpoints.SendAudioFromUrl | src/ZApi.php:183-189 | the request decodes as `sendAudioFromUrl`; the URL travels under the key `audio` |
| Endpoints.SendVideoFromUrl | src/ZApi.php:197-203 | the request decodes as `sendVideoFromUrl`; the URL travels under the key `video` |
| Endpoints.SendDocumentFromUrl | src/ZApi.php:212-224 | fails with the supplied extension exactly when it is not among pdf, docx, doc, xlsx, deb, gz, 7z, zip (compared verbatim); otherwise posts to `send-document/` + extension and decodes as `sendDocumentFromUrl` with phone and document URL |
| Endpoints.SendLink | src/ZApi.php:236-246 | the request decodes as `sendLink` with all six arguments: the message field is the message, a space and the link, and the body holds exactly the six keys |
| Endpoints.ReadMessage | src/ZApi.php:255-261 | the request decodes as `readMessage` |
| Endpoints.DeleteMessage | src/ZApi.php:271-278 | the request posts to `read-message` yet decodes as `deleteMessage` with its owner flag, because of the extra `owner` key |
| Endpoints.SendTextStatus | src/ZApi.php:290-295 | the request decodes as `sendTextStatus` |
| Endpoints.SendImageStatus | src/ZApi.php:303-308 | the request posts to `send-text-status` yet decodes as `sendImageStatus`, because the body holds `image` instead of `message` |
| Endpoints.GetChats | src/ZApi.php:318-321 | the request decodes as `getChats` |
| Endpoints.GetChatByPhone | src/ZApi.php:328-331 | the request decodes as `getChatByPhone` with the same phone (GET `chats/` + phone) |
| Endpoints.GetChatMessages | src/ZApi.php:338-341 | the request decodes as `getChatMessages` with the same phone |
| Endpoints.GetContacts | src/ZApi.php:353-356 | the request is a GET with an empty body on a `contacts?page=` path; the parameters default to 1 and 15, as in the source; its read-back partner is `Endpoints.GetContactsReadsBack` |
| Endpoints.GetContactsReadsBack | src/ZApi.php:353-356 | for any page and page size, negative ones included, the request decodes as `getContacts` with those two numbers |
| Endpoints.GetContactsByPhone | src/ZApi.php:363-366 | the request decodes as `getContactsByPhone` with the same phone |
| Endpoints.GetProfilePictureByNumber | src/ZApi.php:373-376 | the request decodes as `getProfilePictureByNumber` with the same phone |
| Endpoints.NumberExistsOnWhatsapp | src/ZApi.php:383-386 | the request decodes as `numberExistsOnWhatsapp` with the same phone |
| Endpoints.CreateGroup | src/ZApi.php:398-404 | the request decodes as `createGroup` with the same name and phone list |
| Endpoints.UpdateGroupName | src/ZApi.php:412-418 | the request decodes as `updateGroupName`, with `groupId` carried as a list |
| Endpoints.AddAdmin | src/ZApi.php:426-436 | the request decodes as `addAdmin` with the same group and phones |
| Endpoints.RemoveAdmin | src/ZApi.php:444-454 | the request decodes as `removeAdmin` with the same group and phones |
| Endpoints.AddParticipant | src/ZApi.php:462-472 | the request decodes as `addParticipant` with the same group and phones |
| Endpoints.RemoveParticipant | src/ZApi.php:480-490 | the request decodes as `removeParticipant` with the same group and phones |
| Endpoints.LeaveGroup | src/ZApi.php:497-506 | the request decodes as `leaveGroup` with the same group |
| Endpoints.GetGroupMetadata | src/ZApi.php:513-516 | the request decodes as `getGroupMetadata` with the same key |
| Endpoints.GetQueue | src/ZApi.php:526-529 | the request decodes as `getQueue` (GET `queue`) |
| Endpoints.RemoveAllMessagesFromQueue | src/ZApi.php:535-538 | the request decodes as `removeAllMessagesFromQueue` (DELETE `queue`) |
| Endpoints.RemoveMessageByZapId | src/ZApi.php:545-548 | the request decodes as `removeMessageByZapId` with the same id |
| Endpoints.Build | src/ZApi.php:212-218 | among all public methods, only `sendDocumentFromUrl` with an extension off the whitelist fails, and its error carries that extension |
| Endpoints.BuildReadsBack | src/ZApi.php:84-548 | every request the surface builds decodes as the call that built it (restart as the QR-code image call) |
| Endpoints.BuiltVerbIsAccepted | src/ZApi.php:63-72 | every endpoint hands `doRequest` an upper-case whitelisted verb, so no endpoint raises the verb error |
| Endpoints.BuildInjective | src/ZApi.php:84-548 | two calls issue the same request only when they are the same call, or are restart and `generateQrCodeBase64` |
| Endpoints.RestartIssuesQrCodeImage | src/ZApi.php:97-100 | restart issues exactly the request of `generateQrCodeBase64`, path `qr-code/image` |
| Endpoints.GetContactsDefaults | src/ZApi.php:353-356 | `getContacts()` with its defaults is GET `contacts?page=1&pageSize=15` with no body |
| Endpoints.GetContactsNegativePage | src/ZApi.php:355 | page -2, size 100 gives `contacts?page=-2&pageSize=100` |
| Endpoints.SendTextExample | src/ZApi.php:137-143 | a sample `sendText` is POST `send-text` with body {phone, message} |
| Endpoints.SendLinkExample | src/ZApi.php:240 | "Check this" with link "http://x.test" sends the message "Check this http://x.test" |
| Endpoints.RemoveMessageByZapIdExample | src/ZApi.php:545-548 | `removeMessageByZapId("abc123")` is DELETE `queue/abc123` with no body |
| Endpoints.SendDocumentExtensionCase | src/ZApi.php:214-218 | "PDF" is refused with that value, "pdf" accepted: no case folding |
| Client.ZApi.constructor | src/ZApi.php:39-44 | stores both credentials, derives the base URL from them, and starts with nothing sent |
| Client.ZApi.DoRequest | src/ZApi.php:63-77 | succeeds exactly when the verb is a whitelisted verb in some casing; then the upper-cased request is appended to the log; otherwise the error carries the upper-cased verb and the log is unchanged |
| Client.ZApi.Invoke | src/ZApi.php:212-224 | an endpoint call returns what `Build` gives; on success exactly that request is appended, and on the extension error nothing is sent, since the throw comes before `doRequest` |

## Left out

- Guzzle client construction and the HTTP call (`getClient`, the `request` call in `doRequest`): foreign library and network I/O. A successful `DoRequest` appends the request to `sent` and returns it. The response is not modelled.
- `json_encode` of the body and `json_decode` of the response: external serialisation. The body is an abstract map, and the decoded response is not modelled.
- The order of keys in the PHP array body: a map has no order.
- Resolution of the relative path against `base_uri` (section 5.2 of RFC 3986): a Guzzle behaviour. Requests keep the relative path and the base URL is a separate field.
- PHP integer width: `int` is unbounded here, and `getContacts` has no 64-bit limit.
- Locale-dependent `strtoupper` (PHP before 8.2): the verb is upper-cased on ASCII letters only.
- The text of both exception messages: the error carries only the offending value (the upper-cased verb, or the extension).
- The service provider, the facade and the test case: framework registration with no domain logic. These files are not part of this model.
- `Invoke` stands for the 35 public endpoint methods as one method over `Routes.Operation`; they are not written out as separate methods of the class.
- Endpoints.SendImageStatus: takes a `string`, as the docblock says; the PHP parameter has no type declaration, so any PHP value could go under `image`.
- PHP strings are byte strings and Dafny strings are sequences of Unicode characters. ASCII upper-casing agrees on valid UTF-8, but non-UTF-8 input has no counterpart here.
- Builders other than `GetContacts` state their partner as the decoder read-back in their own contract. `GetContacts` has it in `Endpoints.GetContactsReadsBack`.
- Every built request decodes as its call. The converse, that the decoder accepts no request other than a built one, is not proved.
