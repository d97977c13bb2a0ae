/** The bookkeeping of R2RChatbot (main.py:12-381): which document and which conversation
    the chatbot is bound to, and how each backend call's outcome updates them. Every call
    into the R2R client is replaced by its outcome, passed in as a parameter. */
module Bot {
  import opened Wrappers
  import DuplicateId

  /** One entry of `client.documents.list()`, reduced to the fields the lookup compares and reports. */
  datatype DocumentInfo = DocumentInfo(id: string, ingestionStatus: string)

  /** The request that `client.retrieval.agent` receives: the prompt, the single document
      the search is filtered to, and the conversation it continues. */
  datatype AgentCall = AgentCall(content: string, documentFilter: string, conversationId: string)

  const QueryPrefix: string :=
    "### Answer the following query without any additional context or mentioning the document in your response:\n            "

  /** The first listed document whose id equals `id` (check_document_status, main.py:274-285). */
  function FindDocument(docs: seq<DocumentInfo>, id: string): (r: Option<DocumentInfo>)
    ensures r.None? <==> forall k :: 0 <= k < |docs| ==> docs[k].id != id
    ensures r.Some? ==> exists k :: 0 <= k < |docs| && docs[k] == r.value && docs[k].id == id
                                    && forall j :: 0 <= j < k ==> docs[j].id != id
  {
    if docs == [] then None
    else if docs[0].id == id then Some(docs[0])
    else
      var r := FindDocument(docs[1..], id);
      assert forall k :: 1 <= k < |docs| ==> docs[k] == docs[1..][k - 1];
      r
  }

  class Chatbot {
    /** Whether `self.client` is set (the client is built by code outside this model). */
    var hasClient: bool
    var documentId: Option<string>
    var conversationId: Option<string>

    /** R2RChatbot.__init__ (main.py:17-28): no document and no conversation yet. */
    constructor (clientAvailable: bool)
      ensures hasClient == clientAvailable && documentId == None && conversationId == None
    {
      hasClient := clientAvailable;
      documentId := None;
      conversationId := None;
    }

    /** upload_document_to_r2r (main.py:194-251). `fileExists` is the result of the file
        check; `created` is what `documents.create` returned (the new id) or the text of
        the exception it raised. A duplicate error is turned into success when the existing
        id can be read from it. */
    method UploadDocument(fileExists: bool, created: Result<string, string>) returns (r: Option<string>)
      modifies this`documentId
      ensures !hasClient || !fileExists ==> r == None
      ensures hasClient && fileExists && created.Success? ==> r == Some(created.value)
      ensures hasClient && fileExists && created.Failure? ==> r == DuplicateId.RecoverDocumentId(created.error)
      ensures r.Some? ==> documentId == r
      ensures r.None? ==> documentId == old(documentId)
    {
      if !hasClient {
        return None;
      }
      if !fileExists {
        return None;
      }
      match created
      case Success(id) =>
        documentId := Some(id);
        r := documentId;
      case Failure(error) =>
        var recovered := DuplicateId.RecoverDocumentId(error);
        if recovered.Some? {
          documentId := recovered;
        }
        r := recovered;
    }

    /** check_document_status (main.py:253-288): `listing` is the result of
        `documents.list()`, or None when it raised. Reads the state and changes nothing. */
    method CheckDocumentStatus(documentIdArg: Option<string>, listing: Option<seq<DocumentInfo>>)
      returns (r: Option<DocumentInfo>)
      ensures !hasClient || !Truthy(Or(documentIdArg, documentId)) || listing.None? ==> r == None
      ensures hasClient && Truthy(Or(documentIdArg, documentId)) && listing.Some? ==>
                r == FindDocument(listing.value, Or(documentIdArg, documentId).value)
      ensures r.Some? ==> r.value.id == Or(documentIdArg, documentId).value
    {
      if !hasClient {
        return None;
      }
      var target := Or(documentIdArg, documentId);
      if !Truthy(target) {
        return None;
      }
      if listing.None? {
        return None;
      }
      r := FindDocument(listing.value, target.value);
    }

    /** delete_document (main.py:290-326), after the local file removal. `deleted` is the
        response of `documents.delete`, or None when it raised. The stored id is cleared
        only when the deleted id is the stored one. */
    method DeleteDocument(documentIdArg: Option<string>, deleted: Option<string>) returns (r: Option<string>)
      modifies this`documentId
      ensures r.Some? <==> hasClient && Truthy(Or(documentIdArg, old(documentId))) && deleted.Some?
      ensures r.Some? ==> r == deleted
      ensures r.Some? && Or(documentIdArg, old(documentId)) == old(documentId) ==> documentId == None
      ensures r.None? || Or(documentIdArg, old(documentId)) != old(documentId) ==> documentId == old(documentId)
    {
      if !hasClient {
        return None;
      }
      var target := Or(documentIdArg, documentId);
      if !Truthy(target) {
        return None;
      }
      if deleted.None? {
        return None;
      }
      if target == documentId {
        documentId := None;
      }
      r := deleted;
    }

    /** send_message_to_r2r (main.py:328-381). `created` is the id returned by
        `conversations.create` (None when it raised); `reply` is the content of the last
        message returned by `retrieval.agent` (None when it raised). `call` is the agent
        request that was issued, if any. */
    method SendMessage(message: string, documentIdArg: Option<string>, conversationIdArg: Option<string>,
                       created: Option<string>, reply: Option<string>)
      returns (r: Option<string>, call: Option<AgentCall>)
      modifies this`conversationId
      // no client or no document: nothing is sent and nothing changes
      ensures !hasClient || !Truthy(Or(documentIdArg, documentId)) ==>
                r == None && call == None && conversationId == old(conversationId)
      // a usable conversation id is reused, never replaced
      ensures hasClient && Truthy(Or(documentIdArg, documentId)) && Or(conversationIdArg, old(conversationId)).Some? ==>
                conversationId == old(conversationId)
                && call == Some(AgentCall(QueryPrefix + message, Or(documentIdArg, documentId).value,
                                          Or(conversationIdArg, old(conversationId)).value))
                && r == reply
      // with neither an argument nor a stored id, a conversation is created and stored first
      ensures hasClient && Truthy(Or(documentIdArg, documentId)) && Or(conversationIdArg, old(conversationId)).None? ==>
                conversationId == created
                && (created.None? ==> call == None && r == None)
                && (created.Some? ==> call == Some(AgentCall(QueryPrefix + message, Or(documentIdArg, documentId).value, created.value))
                                      && r == reply)
      ensures old(conversationId).Some? ==> conversationId == old(conversationId)
      ensures r.Some? ==> call.Some?
      ensures r.Some? && !Truthy(conversationIdArg) ==> conversationId.Some?
    {
      if !hasClient {
        return None, None;
      }
      var target := Or(documentIdArg, documentId);
      if !Truthy(target) {
        return None, None;
      }
      var conversation := Or(conversationIdArg, conversationId);
      if conversation.None? {
        if created.None? {
          return None, None;
        }
        conversationId := created;
        conversation := conversationId;
      }
      call := Some(AgentCall(QueryPrefix + message, target.value, conversation.value));
      r := reply;
    }
  }
}
