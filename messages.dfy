/** The conversation about one flat: the loader fetches its messages in
    order of creation, the action posts a new one, and the page appends the
    posted message and validates the text being typed. */
module Messages {
  import opened Common
  import opened Text
  import opened Lists
  import opened FieldValidation

  /** A message as the page shows it. */
  datatype Message = Message(
    id: string, flatId: string, senderId: string, content: string, creationTime: string,
    senderName: Option<string>, senderEmail: Option<string>)

  /** A message as `GET /flats/:id/messages` returns it. */
  datatype MessageDocument = MessageDocument(
    docId: string, senderId: string, content: string, createdAt: string,
    senderName: Option<string>, senderEmail: Option<string>)

  /** The list response: `meta.isOwner`, `meta.userCanMessage` (each `None`
      when absent) and the documents. */
  datatype MessageList = MessageList(isOwner: Option<bool>, userCanMessage: Option<bool>, data: seq<MessageDocument>)

  /** The locale-dependent clock functions the page uses:
      `new Date(x).toLocaleString()`, `Date.parse`, and the current time's
      `toLocaleString()`. */
  datatype Clock = Clock(stamp: string -> string, parse: string -> Option<int>, nowStamp: string)

  datatype LoaderData = LoaderData(messages: seq<Message>, isOwner: bool, userCanMessage: bool)

  datatype MessagesLoad =
    | MessagesLoaded(data: LoaderData)
    | MessagesRedirect(redirect: Redirect)
    | MessagesError(status: int, message: string)

  const UnexpectedLoadMessage := "Unexpected error loading messages"

  /** A received document becomes a message of the flat: its own id,
      sender and text, and its creation time as the clock shows it. */
  function ToMessage(doc: MessageDocument, flatId: string, clock: Clock): (r: Message)
    ensures r.id == doc.docId && r.flatId == flatId && r.senderId == doc.senderId && r.content == doc.content
    ensures r.creationTime == clock.stamp(doc.createdAt)
    ensures r.senderName == doc.senderName && r.senderEmail == doc.senderEmail
  {
    Message(doc.docId, flatId, doc.senderId, doc.content, clock.stamp(doc.createdAt), doc.senderName, doc.senderEmail)
  }

  /** The documents as messages of the flat, in the order received. */
  function ToMessages(docs: seq<MessageDocument>, flatId: string, clock: Clock): (r: seq<Message>)
    ensures |r| == |docs|
    ensures forall i :: 0 <= i < |r| ==> r[i] == ToMessage(docs[i], flatId, clock)
  {
    seq(|docs|, i requires 0 <= i < |docs| => ToMessage(docs[i], flatId, clock))
  }

  /** The sort key: `Date.parse` of the shown time. A time it cannot read
      counts as 0 here (see the notes on what is left out). */
  function TimeKey(clock: Clock): Message -> int
  {
    (m: Message) => match clock.parse(m.creationTime) case Some(t) => t case None => 0
  }

  /** `meta?.x || false`. */
  function FlagOr(b: Option<bool>): bool
  {
    b == Some(true)
  }

  /** The status of the first failed request: the user check comes first. */
  function FailureStatus(me: Reply<()>, list: Reply<MessageList>): (s: Option<int>)
    requires me.Fail? || list.Fail?
    ensures me.Fail? ==> s == me.status
    ensures me.Ok? ==> list.Fail? && s == list.status
  {
    if me.Fail? then me.status else list.status
  }

  /** `messagesLoader`. The messages are those received, each tagged with
      the flat, reordered ascending by creation time. A 401 sends the user
      to sign in, a 403 shows an empty conversation that may be joined, and
      any other failure is a 500. */
  function MessagesLoader(token: Option<string>, flatId: Option<string>, me: Reply<()>, list: Reply<MessageList>, clock: Clock)
    : (r: MessagesLoad)
    ensures !Truthy(token) ==> r == MessagesRedirect(Redirect("/login"))
    ensures Truthy(token) && !Truthy(flatId) ==> r == MessagesRedirect(Redirect("/"))
    ensures Truthy(token) && Truthy(flatId) && me.Ok? && list.Ok? ==>
      && r.MessagesLoaded?
      && multiset(r.data.messages) == multiset(ToMessages(list.data.data, flatId.value, clock))
      && (forall i, j :: 0 <= i < j < |r.data.messages| ==>
            TimeKey(clock)(r.data.messages[i]) <= TimeKey(clock)(r.data.messages[j]))
      && r.data.isOwner == FlagOr(list.data.isOwner)
      && r.data.userCanMessage == FlagOr(list.data.userCanMessage)
    ensures Truthy(token) && Truthy(flatId) && (me.Fail? || list.Fail?) ==>
      r == match FailureStatus(me, list)
        case Some(401) => MessagesRedirect(Redirect("/login"))
        case Some(403) => MessagesLoaded(LoaderData([], false, true))
        case _ => MessagesError(500, UnexpectedLoadMessage)
  {
    if !Truthy(token) then MessagesRedirect(Redirect("/login"))
    else if !Truthy(flatId) then MessagesRedirect(Redirect("/"))
    else if me.Fail? || list.Fail? then
      match FailureStatus(me, list)
      case Some(401) => MessagesRedirect(Redirect("/login"))
      case Some(403) => MessagesLoaded(LoaderData([], false, true))
      case _ => MessagesError(500, UnexpectedLoadMessage)
    else
      var received := ToMessages(list.data.data, flatId.value, clock);
      SortByKeyAscending(received, TimeKey(clock));
      MessagesLoaded(LoaderData(SortBy(received, ByKey(TimeKey(clock))),
        FlagOr(list.data.isOwner), FlagOr(list.data.userCanMessage)))
  }

  /** Every loaded message belongs to the flat of the route. */
  lemma LoadedMessagesBelongToFlat(token: Option<string>, flatId: string, list: MessageList, clock: Clock, i: int)
    requires Truthy(token) && flatId != ""
    requires var r := MessagesLoader(token, Some(flatId), Ok(()), Ok(list), clock); 0 <= i < |r.data.messages|
    ensures MessagesLoader(token, Some(flatId), Ok(()), Ok(list), clock).data.messages[i].flatId == flatId
  {
    var r := MessagesLoader(token, Some(flatId), Ok(()), Ok(list), clock);
    var received := ToMessages(list.data, flatId, clock);
    var m := r.data.messages[i];
    assert m in multiset(r.data.messages);
    assert m in multiset(received);
    var k :| 0 <= k < |received| && received[k] == m;
  }

  /** The created message as `POST /flats/:id/messages` returns it;
      `createdAt` is `None` when absent. */
  datatype SentDocument = SentDocument(docId: string, senderId: string, content: string, createdAt: Option<string>)

  /** The action data: `{ success: true, message }` or `{ error }`. */
  datatype MessageActionData = MessageSent(message: Message) | MessageError(error: string)

  const NotAuthenticatedMessage := "Not authenticated"
  const SendFailedMessage := "Failed to send the message. Please try again."
  const EmptyContentMessage := "Message content cannot be empty."

  /** `messagesAction`. `content` is `None` when the form has no such field.
      The post goes out exactly when there is a session, a flat and some
      non-blank text; the length is not checked here. */
  function MessagesAction(token: Option<string>, flatId: Option<string>, content: Option<string>,
                          reply: Reply<SentDocument>, clock: Clock)
    : (r: (MessageActionData, Option<(string, string)>))
    ensures !Truthy(token) ==> r == (MessageError(NotAuthenticatedMessage), None)
    ensures r.1.Some? <==> Truthy(token) && Truthy(flatId) && content.Some? && !IsBlank(content.value)
    ensures Truthy(token) && r.1.None? ==> r.0 == MessageError(EmptyContentMessage)
    ensures r.1.Some? ==> r.1.value == (flatId.value, content.value)
    ensures r.1.Some? && reply.Ok? ==>
      r.0 == MessageSent(Message(reply.data.docId, flatId.value, reply.data.senderId, reply.data.content,
        if Truthy(reply.data.createdAt) then clock.stamp(reply.data.createdAt.value) else clock.nowStamp, None, None))
    ensures r.1.Some? && reply.Fail? ==> r.0 == MessageError(SendFailedMessage)
  {
    if !Truthy(token) then (MessageError(NotAuthenticatedMessage), None)
    else if !Truthy(flatId) || content.None? || Trim(content.value) == "" then (MessageError(EmptyContentMessage), None)
    else
      var request := Some((flatId.value, content.value));
      match reply
      case Ok(doc) =>
        var time := if Truthy(doc.createdAt) then clock.stamp(doc.createdAt.value) else clock.nowStamp;
        (MessageSent(Message(doc.docId, flatId.value, doc.senderId, doc.content, time, None, None)), request)
      case Fail(_, _) => (MessageError(SendFailedMessage), request)
  }

  /** Text over the page's limit of 1000 code units is still posted: only
      the page's own check refuses it. */
  lemma LongMessageIsPosted(token: Option<string>, flatId: string, text: string, reply: Reply<SentDocument>, clock: Clock, env: Env)
    requires Truthy(token) && flatId != "" && !IsBlank(text) && Utf16Length(text) > 1000
    ensures MessagesAction(token, Some(flatId), Some(text), reply, clock).1 == Some((flatId, text))
    ensures Validate(MessageContent, Str(text), NoContext, env, Failed) == MessageTooLongMessage
  {
    MessageRule(text, NoContext, env, Failed);
  }

  /** The signed-in user's name and address, once fetched. */
  datatype CurrentUser = CurrentUser(firstName: string, lastName: string, email: string)

  const BlankSubmitMessage := "Message content can’t be an empty string."

  /** The message the page appends for posted action data: each missing
      part replaced by its default, the sender named after the signed-in
      user when known. */
  function AppendedMessage(m: Message, flatId: string, user: Option<CurrentUser>, clock: Clock): (r: Message)
    ensures r.flatId == flatId && r.content == m.content && r.id == m.id
    ensures r.creationTime == if m.creationTime != "" then m.creationTime else clock.nowStamp
    ensures r.senderName == Some(if user.Some? then user.value.firstName + " " + user.value.lastName else "You")
  {
    Message(m.id, flatId, m.senderId, m.content,
      if m.creationTime != "" then m.creationTime else clock.nowStamp,
      Some(if user.Some? then user.value.firstName + " " + user.value.lastName else "You"),
      Some(if user.Some? && user.value.email != "" then user.value.email else "—"))
  }

  /** The page's state. */
  class MessagesPage {
    const flatId: string
    const isOwner: bool
    const userCanMessage: bool
    var messages: seq<Message>
    var newMessage: string
    var error: string
    var currentUser: Option<CurrentUser>

    constructor (flat: string, data: LoaderData)
      ensures flatId == flat && messages == data.messages
      ensures isOwner == data.isOwner && userCanMessage == data.userCanMessage
      ensures newMessage == "" && error == "" && currentUser == None
      ensures SendDisabled()
    {
      flatId := flat;
      isOwner := data.isOwner;
      userCanMessage := data.userCanMessage;
      messages := data.messages;
      newMessage := "";
      error := "";
      currentUser := None;
    }

    /** The form is shown to visitors allowed to write, never to the owner. */
    function ShowsForm(): (r: bool)
      ensures r ==> !isOwner
      ensures !userCanMessage ==> !r
      ensures !isOwner && userCanMessage ==> r
    {
      !isOwner && userCanMessage
    }

    /** The send button is disabled while the text is blank. */
    function SendDisabled(): (r: bool)
      reads this
      ensures r <==> Trim(newMessage) == ""
    {
      IsBlank(newMessage)
    }

    /** The effect that loads the signed-in user: without a token nothing is
        requested; a successful `GET /users/me` stores its `currentUser`
        (absent when the reply carries none); a failure is only logged. */
    method FetchUser(token: Option<string>, me: Reply<Option<CurrentUser>>) returns (requested: bool)
      modifies this
      ensures requested <==> Truthy(token)
      ensures requested && me.Ok? ==> currentUser == me.data
      ensures !(requested && me.Ok?) ==> currentUser == old(currentUser)
      ensures messages == old(messages) && newMessage == old(newMessage) && error == old(error)
    {
      requested := Truthy(token);
      if requested && me.Ok? {
        currentUser := me.data;
      }
    }

    /** The effect on new action data: a posted message is appended after
        all earlier ones and the input and error are cleared; an error is
        shown; nothing else changes. */
    method ShowActionData(data: MessageActionData, clock: Clock)
      modifies this
      ensures data.MessageSent? ==>
        && messages == old(messages) + [AppendedMessage(data.message, flatId, currentUser, clock)]
        && newMessage == "" && error == ""
      ensures data.MessageError? && data.error != "" ==>
        messages == old(messages) && newMessage == old(newMessage) && error == data.error
      ensures data.MessageError? && data.error == "" ==>
        messages == old(messages) && newMessage == old(newMessage) && error == old(error)
      ensures currentUser == old(currentUser)
    {
      match data
      case MessageSent(m) =>
        messages := messages + [AppendedMessage(m, flatId, currentUser, clock)];
        newMessage := "";
        error := "";
      case MessageError(e) =>
        if e != "" {
          error := e;
        }
    }

    /** `handleInputChange`: blank text clears the error without checking;
        other text gets the message rule. */
    method HandleInputChange(value: string, env: Env)
      modifies this
      ensures newMessage == value
      ensures IsBlank(value) ==> error == ""
      ensures !IsBlank(value) ==> error == Validate(MessageContent, Str(value), NoContext, env, Failed)
      ensures !IsBlank(value) ==> (error == "" <==> Utf16Length(value) <= 1000)
      ensures messages == old(messages) && currentUser == old(currentUser)
    {
      newMessage := value;
      if Trim(value) != "" {
        MessageRule(value, NoContext, env, Failed);
        error := Validate(MessageContent, Str(value), NoContext, env, Failed);
      } else {
        error := "";
      }
    }

    /** `handleBlur`: the message rule on the current text. */
    method HandleBlur(env: Env)
      modifies this
      ensures error == Validate(MessageContent, Str(newMessage), NoContext, env, Failed)
      ensures error == "" <==> !IsBlank(newMessage) && Utf16Length(newMessage) <= 1000
      ensures messages == old(messages) && newMessage == old(newMessage) && currentUser == old(currentUser)
    {
      MessageRule(newMessage, NoContext, env, Failed);
      error := Validate(MessageContent, Str(newMessage), NoContext, env, Failed);
    }

    /** The submit handler: blank text is refused with a message and not
        submitted; anything else is submitted as it is. */
    method Submit() returns (submitted: bool)
      modifies this
      ensures submitted <==> !IsBlank(newMessage)
      ensures !submitted ==> error == BlankSubmitMessage
      ensures submitted ==> error == old(error)
      ensures messages == old(messages) && newMessage == old(newMessage) && currentUser == old(currentUser)
    {
      if Trim(newMessage) == "" {
        error := BlankSubmitMessage;
        return false;
      }
      submitted := true;
    }
  }
}
