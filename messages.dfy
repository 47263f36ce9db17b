/** The message thread of one application: the fetched messages, the input
    box, and the side each message is drawn on. */
module MessageThread {
  import opened Wrappers
  import opened Text
  import opened Models

  datatype Message = Message(id: int, senderId: int, content: string, sentAt: int)

  /** A message is drawn as the viewer's own when the viewer is the candidate
      and sent it as candidate, or is the recruiter and sent it as recruiter. */
  predicate IsSentByUser(userRole: Role, m: Message, candidateId: int, recruiterId: int) {
    (userRole == Candidate && m.senderId == candidateId) || (userRole == Recruiter && m.senderId == recruiterId)
  }

  /** In a thread between two different parties, every message written by one
      of them is drawn as own by exactly one of the two viewers, and an admin
      viewer owns none. */
  lemma OwnSideExactlyOnce(m: Message, candidateId: int, recruiterId: int)
    requires candidateId != recruiterId
    requires m.senderId == candidateId || m.senderId == recruiterId
    ensures IsSentByUser(Candidate, m, candidateId, recruiterId) != IsSentByUser(Recruiter, m, candidateId, recruiterId)
    ensures IsSentByUser(Candidate, m, candidateId, recruiterId) <==> m.senderId == candidateId
    ensures !IsSentByUser(Admin, m, candidateId, recruiterId)
  {
  }

  const LOGIN_TO_VIEW: string := "Please log in to view messages"
  const EMPTY_MESSAGE: string := "Message cannot be empty"

  class Messages {
    /** The props. */
    const applicationId: int
    const userRole: Role
    const candidateId: int
    const recruiterId: int

    var messages: seq<Message>
    var newMessage: string
    var error: string

    constructor (applicationId: int, userRole: Role, candidateId: int, recruiterId: int)
      ensures this.applicationId == applicationId && this.userRole == userRole
      ensures this.candidateId == candidateId && this.recruiterId == recruiterId
      ensures messages == [] && newMessage == "" && error == ""
    {
      this.applicationId, this.userRole := applicationId, userRole;
      this.candidateId, this.recruiterId := candidateId, recruiterId;
      messages, newMessage, error := [], "", "";
    }

    /** fetchMessages: with no token only `error` changes and nothing is
        requested; a response replaces the thread; a failure sets `error`. */
    method FetchMessages(token: Option<string>, reply: Reply<seq<Message>>) returns (requested: bool)
      modifies this
      ensures requested == Truthy(token)
      ensures newMessage == old(newMessage)
      ensures !requested ==> error == LOGIN_TO_VIEW && messages == old(messages)
      ensures requested && reply.Ok? ==> messages == reply.data && error == old(error)
      ensures requested && reply.Failed? ==>
        error == ErrorText(reply.message, "Error fetching messages") && messages == old(messages)
    {
      if !Truthy(token) {
        error := LOGIN_TO_VIEW;
        return false;
      }
      requested := true;
      match reply
      case Ok(data) => messages := data;
      case Failed(message) => error := ErrorText(message, "Error fetching messages");
    }

    /** The input's onChange. */
    method SetNewMessage(text: string)
      modifies this
      ensures newMessage == text && messages == old(messages) && error == old(error)
    {
      newMessage := text;
    }

    /** handleSendMessage: a blank input sets `error` and sends nothing; a sent
        message is appended after the earlier ones and the input and error are
        cleared; a failure sets `error` and keeps thread and input. */
    method HandleSendMessage(reply: Reply<Message>) returns (requested: bool)
      modifies this
      ensures requested == !IsBlank(old(newMessage))
      ensures !requested ==> error == EMPTY_MESSAGE && messages == old(messages) && newMessage == old(newMessage)
      ensures requested && reply.Ok? ==>
        && messages == old(messages) + [reply.data]
        && |messages| == |old(messages)| + 1 && messages[..|old(messages)|] == old(messages)
        && newMessage == "" && error == ""
      ensures requested && reply.Failed? ==>
        error == ErrorText(reply.message, "Error sending message") && messages == old(messages) && newMessage == old(newMessage)
    {
      TrimEmptyIffBlank(newMessage);
      if Trim(newMessage) == [] {
        error := EMPTY_MESSAGE;
        return false;
      }
      requested := true;
      match reply
      case Ok(sent) =>
        messages := messages + [sent];
        newMessage := "";
        error := "";
      case Failed(message) =>
        error := ErrorText(message, "Error sending message");
    }
  }
}
